/** The REST wrappers: each public resource function either returns at once
    because a required argument is empty, or sends exactly one request
    through the shared HTTP instance and reports its outcome to one of the two
    callbacks. The HTTP library is abstract: a request is a value, and the
    reply is a parameter. */
module RestRequests {
  import opened Wrappers
  import opened SplitJoin
  import opened PathEncoding

  datatype HttpMethod = Get | Put | Post | Delete

  datatype MediaType = TextPlain | TextXml | ApplicationJson

  datatype ResponseType = Document | Text | Json

  /** One request. `path` is relative to the base URI; `contentType` None
      means the instance default (`text/plain`); `accept` and `responseType`
      None mean the call sets none. */
  datatype Request = Request(
    verb: HttpMethod,
    path: string,
    body: Option<string>,
    contentType: Option<MediaType>,
    accept: Option<MediaType>,
    responseType: Option<ResponseType>)

  /** One call of a public resource function, with its arguments. Omitted
      string arguments default to `""`; `put` selects PUT over POST. */
  datatype RestCall =
    | DownloadDeployedModel
    | UploadModel(modelInXml: string, put: bool)
    | Autorun(filepath: string, put: bool)
    | PauseModel(put: bool)
    | StartModel(put: bool)
    | StopModel(put: bool)
    | GetModelState
    | GetModelName
    | DeployModelFromFile(filepath: string, put: bool)
    | GetRuntimeComponentIds
    | GetRuntimeComponentPropertyKeys(componentId: string)
    | GetRuntimeComponentProperty(componentId: string, componentKey: string)
    | GetRuntimeComponentPropertyDynamic(componentId: string, propertyKey: string)
    | SetRuntimeComponentProperties(propertyMap: string, put: bool)
    | SetRuntimeComponentProperty(componentId: string, componentKey: string, componentValue: string)
    | GetEventChannelsIds
    | GetEventChannelSource(channelId: string)
    | GetEventChannelTarget(channelId: string)
    | GetComponentEventChannelsIds(componentId: string)
    | GetDataChannelsIds
    | GetDataChannelSource(channelId: string)
    | GetDataChannelTarget(channelId: string)
    | GetComponentDataChannelsIds(componentId: string)
    | GetComponentInputPortIds(componentId: string)
    | GetComponentOutputPortIds(componentId: string)
    | GetPortDatatype(componentId: string, portId: string)
    | SendDataToInputPort(componentId: string, portId: string, value: string, put: bool)
    | TriggerEvent(componentId: string, eventPortId: string, put: bool)
    | DownloadModelFromFile(filepath: string)
    | StoreModel(filepath: string, modelInXml: string)
    | StoreData(filepath: string, data: string)
    | StoreWebappData(webappId: string, filepath: string, data: string)
    | GetWebappData(webappId: string, filepath: string)
    | DeleteModelFromFile(filepath: string)
    | ListStoredModels
    | GetComponentDescriptorsAsXml
    | GetComponentDescriptorsAsJson
    | GetRestFunctions

  /** The text of a fixed path word: non-empty, with neither `/` nor the
      encoding delimiter in it. */
  type WordText = w: string | w != "" && '/' !in w && Delimiter !in w witness "runtime"

  /** A path segment: a fixed word, or an argument that is spliced in encoded. */
  datatype Segment = Word(text: WordText) | Param(value: string)

  function RenderSegment(s: Segment): string
  {
    match s
    case Word(w) => w
    case Param(p) => EncodeParam(p)
  }

  function Render(segments: seq<Segment>): (parts: seq<string>)
    ensures |parts| == |segments|
  {
    if |segments| == 0 then [] else [RenderSegment(segments[0])] + Render(segments[1..])
  }

  /** The arguments spliced into a path, in order. */
  function Params(segments: seq<Segment>): seq<string>
  {
    if |segments| == 0 then []
    else match segments[0]
      case Word(_) => Params(segments[1..])
      case Param(p) => [p] + Params(segments[1..])
  }


  // The fixed words of the resource paths.
  const SegAutorun: WordText := "autorun"
  const SegChannels: WordText := "channels"
  const SegComponents: WordText := "components"
  const SegData: WordText := "data"
  const SegDatatype: WordText := "datatype"
  const SegDescriptors: WordText := "descriptors"
  const SegDynamicProperty: WordText := "dynamicproperty"
  const SegEvent: WordText := "event"
  const SegEvents: WordText := "events"
  const SegIds: WordText := "ids"
  const SegInput: WordText := "input"
  const SegJson: WordText := "json"
  const SegModel: WordText := "model"
  const SegModels: WordText := "models"
  const SegName: WordText := "name"
  const SegNames: WordText := "names"
  const SegOutput: WordText := "output"
  const SegPause: WordText := "pause"
  const SegPorts: WordText := "ports"
  const SegProperties: WordText := "properties"
  const SegRestFunctions: WordText := "restfunctions"
  const SegRuntime: WordText := "runtime"
  const SegSource: WordText := "source"
  const SegStart: WordText := "start"
  const SegState: WordText := "state"
  const SegStop: WordText := "stop"
  const SegStorage: WordText := "storage"
  const SegTarget: WordText := "target"
  const SegWebapps: WordText := "webapps"
  const SegXml: WordText := "xml"

  /** The resource each call addresses, as its segments. `GetDataChannelTarget`
      addresses `/source`, exactly like `GetDataChannelSource`. */
  function Endpoint(call: RestCall): (segments: seq<Segment>)
    ensures |segments| > 0
  {
    match call
    case DownloadDeployedModel => [Word(SegRuntime), Word(SegModel)]
    case UploadModel(_, _) => [Word(SegRuntime), Word(SegModel)]
    case Autorun(filepath, _) => [Word(SegRuntime), Word(SegModel), Word(SegAutorun), Param(filepath)]
    case PauseModel(_) => [Word(SegRuntime), Word(SegModel), Word(SegState), Word(SegPause)]
    case StartModel(_) => [Word(SegRuntime), Word(SegModel), Word(SegState), Word(SegStart)]
    case StopModel(_) => [Word(SegRuntime), Word(SegModel), Word(SegState), Word(SegStop)]
    case GetModelState => [Word(SegRuntime), Word(SegModel), Word(SegState)]
    case GetModelName => [Word(SegRuntime), Word(SegModel), Word(SegName)]
    case DeployModelFromFile(filepath, _) => [Word(SegRuntime), Word(SegModel), Param(filepath)]
    case GetRuntimeComponentIds => [Word(SegRuntime), Word(SegModel), Word(SegComponents), Word(SegIds)]
    case GetRuntimeComponentPropertyKeys(componentId) =>
      [Word(SegRuntime), Word(SegModel), Word(SegComponents), Param(componentId)]
    case GetRuntimeComponentProperty(componentId, componentKey) =>
      [Word(SegRuntime), Word(SegModel), Word(SegComponents), Param(componentId), Param(componentKey)]
    case GetRuntimeComponentPropertyDynamic(componentId, propertyKey) =>
      [Word(SegRuntime), Word(SegModel), Word(SegComponents), Param(componentId), Param(propertyKey), Word(SegDynamicProperty)]
    case SetRuntimeComponentProperties(_, _) => [Word(SegRuntime), Word(SegModel), Word(SegComponents), Word(SegProperties)]
    case SetRuntimeComponentProperty(componentId, componentKey, _) =>
      [Word(SegRuntime), Word(SegModel), Word(SegComponents), Param(componentId), Param(componentKey)]
    case GetEventChannelsIds => [Word(SegRuntime), Word(SegModel), Word(SegChannels), Word(SegEvent), Word(SegIds)]
    case GetEventChannelSource(channelId) =>
      [Word(SegRuntime), Word(SegModel), Word(SegChannels), Word(SegEvent), Param(channelId), Word(SegSource)]
    case GetEventChannelTarget(channelId) =>
      [Word(SegRuntime), Word(SegModel), Word(SegChannels), Word(SegEvent), Param(channelId), Word(SegTarget)]
    case GetComponentEventChannelsIds(componentId) =>
      [Word(SegRuntime), Word(SegModel), Word(SegComponents), Param(componentId), Word(SegChannels), Word(SegEvent), Word(SegIds)]
    case GetDataChannelsIds => [Word(SegRuntime), Word(SegModel), Word(SegChannels), Word(SegData), Word(SegIds)]
    case GetDataChannelSource(channelId) =>
      [Word(SegRuntime), Word(SegModel), Word(SegChannels), Word(SegData), Param(channelId), Word(SegSource)]
    case GetDataChannelTarget(channelId) =>
      [Word(SegRuntime), Word(SegModel), Word(SegChannels), Word(SegData), Param(channelId), Word(SegSource)]
    case GetComponentDataChannelsIds(componentId) =>
      [Word(SegRuntime), Word(SegModel), Word(SegComponents), Param(componentId), Word(SegChannels), Word(SegData), Word(SegIds)]
    case GetComponentInputPortIds(componentId) =>
      [Word(SegRuntime), Word(SegModel), Word(SegComponents), Param(componentId), Word(SegPorts), Word(SegInput), Word(SegIds)]
    case GetComponentOutputPortIds(componentId) =>
      [Word(SegRuntime), Word(SegModel), Word(SegComponents), Param(componentId), Word(SegPorts), Word(SegOutput), Word(SegIds)]
    case GetPortDatatype(componentId, portId) =>
      [Word(SegRuntime), Word(SegModel), Word(SegComponents), Param(componentId), Word(SegPorts), Param(portId), Word(SegDatatype)]
    case SendDataToInputPort(componentId, portId, _, _) =>
      [Word(SegRuntime), Word(SegModel), Word(SegComponents), Param(componentId), Word(SegPorts), Param(portId), Word(SegData)]
    case TriggerEvent(componentId, eventPortId, _) =>
      [Word(SegRuntime), Word(SegModel), Word(SegComponents), Param(componentId), Word(SegEvents), Param(eventPortId)]
    case DownloadModelFromFile(filepath) => [Word(SegStorage), Word(SegModels), Param(filepath)]
    case StoreModel(filepath, _) => [Word(SegStorage), Word(SegModels), Param(filepath)]
    case StoreData(filepath, _) => [Word(SegStorage), Word(SegData), Param(filepath)]
    case StoreWebappData(webappId, filepath, _) => [Word(SegStorage), Word(SegWebapps), Param(webappId), Param(filepath)]
    case GetWebappData(webappId, filepath) => [Word(SegStorage), Word(SegWebapps), Param(webappId), Param(filepath)]
    case DeleteModelFromFile(filepath) => [Word(SegStorage), Word(SegModels), Param(filepath)]
    case ListStoredModels => [Word(SegStorage), Word(SegModels), Word(SegNames)]
    case GetComponentDescriptorsAsXml => [Word(SegStorage), Word(SegComponents), Word(SegDescriptors), Word(SegXml)]
    case GetComponentDescriptorsAsJson => [Word(SegStorage), Word(SegComponents), Word(SegDescriptors), Word(SegJson)]
    case GetRestFunctions => [Word(SegRestFunctions)]
  }

  /** The path a call requests, relative to the base URI. */
  function PathOf(call: RestCall): string
  {
    Path(Render(Endpoint(call)))
  }

  /** `get(path, {responseType, headers: {Accept}})`. */
  function Read(path: string, responseType: ResponseType, accept: MediaType): Request
  {
    Request(Get, path, None, None, Some(accept), Some(responseType))
  }

  /** `request({url, method: put ? "put" : "post", data, headers})`. */
  function Write(put: bool, path: string, body: Option<string>, contentType: Option<MediaType>): Request
  {
    Request(if put then Put else Post, path, body, contentType, None, None)
  }

  /** The request a call sends once its guard has passed. Every read asks
      for the response type that matches its `Accept` header, and a body is
      sent only by PUT or POST, always with an explicit content type. */
  function RequestFor(call: RestCall): (r: Request)
    ensures r.path == PathOf(call)
    ensures r.accept == Some(TextXml) <==> r.responseType == Some(Document)
    ensures r.accept == Some(TextPlain) <==> r.responseType == Some(Text)
    ensures r.accept == Some(ApplicationJson) <==> r.responseType == Some(Json)
    ensures r.verb == Get ==> r.accept.Some? && r.body.None?
    ensures r.body.Some? ==> (r.verb == Put || r.verb == Post) && r.contentType.Some?
  {
    var path := PathOf(call);
    match call
    case DownloadDeployedModel => Read(path, Document, TextXml)
    case UploadModel(modelInXml, put) =>
      Write(put, path, Some(modelInXml), Some(TextXml))
    case Autorun(filepath, put) =>
      Write(put, path, None, None)
    case PauseModel(put) => Write(put, path, None, None)
    case StartModel(put) => Write(put, path, None, None)
    case StopModel(put) => Write(put, path, None, None)
    case GetModelState => Read(path, Text, TextPlain)
    case GetModelName => Read(path, Text, TextPlain)
    case DeployModelFromFile(filepath, put) =>
      Write(put, path, None, None)
    case GetRuntimeComponentIds => Read(path, Json, ApplicationJson)
    case GetRuntimeComponentPropertyKeys(componentId) =>
      Read(path, Json, ApplicationJson)
    case GetRuntimeComponentProperty(componentId, componentKey) =>
      Read(path, Text, TextPlain)
    case GetRuntimeComponentPropertyDynamic(componentId, propertyKey) =>
      Read(path, Json, ApplicationJson)
    case SetRuntimeComponentProperties(propertyMap, put) =>
      Write(put, path, Some(propertyMap), Some(ApplicationJson))
    case SetRuntimeComponentProperty(componentId, componentKey, componentValue) =>
      Request(Put, path, Some(componentValue), Some(TextPlain), None, None)
    case GetEventChannelsIds => Read(path, Json, ApplicationJson)
    case GetEventChannelSource(channelId) =>
      Read(path, Json, ApplicationJson)
    case GetEventChannelTarget(channelId) =>
      Read(path, Json, ApplicationJson)
    case GetComponentEventChannelsIds(componentId) =>
      Read(path, Json, ApplicationJson)
    case GetDataChannelsIds => Read(path, Json, ApplicationJson)
    case GetDataChannelSource(channelId) =>
      Read(path, Json, ApplicationJson)
    case GetDataChannelTarget(channelId) =>
      Read(path, Json, ApplicationJson)
    case GetComponentDataChannelsIds(componentId) =>
      Read(path, Json, ApplicationJson)
    case GetComponentInputPortIds(componentId) =>
      Read(path, Json, ApplicationJson)
    case GetComponentOutputPortIds(componentId) =>
      Read(path, Json, ApplicationJson)
    case GetPortDatatype(componentId, portId) =>
      Read(path, Text, TextPlain)
    case SendDataToInputPort(componentId, portId, value, put) =>
      Write(put, path, Some(value), Some(TextPlain))
    case TriggerEvent(componentId, eventPortId, put) =>
      Write(put, path, None, None)
    case DownloadModelFromFile(filepath) =>
      Read(path, Document, TextXml)
    case StoreModel(filepath, modelInXml) =>
      Request(Post, path, Some(modelInXml), Some(TextPlain), None, None)
    case StoreData(filepath, data) =>
      Request(Post, path, Some(data), Some(TextPlain), None, None)
    case StoreWebappData(webappId, filepath, data) =>
      Request(Post, path, Some(data), Some(TextXml), None, None)
    case GetWebappData(webappId, filepath) =>
      Read(path, Text, TextPlain)
    case DeleteModelFromFile(filepath) =>
      Request(Delete, path, None, None, Some(TextPlain), Some(Text))
    case ListStoredModels => Read(path, Json, ApplicationJson)
    case GetComponentDescriptorsAsXml => Read(path, Document, TextXml)
    case GetComponentDescriptorsAsJson => Read(path, Json, ApplicationJson)
    case GetRestFunctions => Read(path, Json, ApplicationJson)
  }

  /** The request a call sends, or None when its guard returns first because
      a required argument is empty; in that case neither callback runs. */
  function Plan(call: RestCall): Option<Request>
  {
    if "" in RequiredArgs(call) then None else Some(RequestFor(call))
  }

  /** The arguments each call's guard checks against `""` before anything is
      sent. */
  function RequiredArgs(call: RestCall): seq<string>
  {
    match call
    case UploadModel(modelInXml, _) => [modelInXml]
    case Autorun(filepath, _) => [filepath]
    case DeployModelFromFile(filepath, _) => [filepath]
    case GetRuntimeComponentPropertyKeys(componentId) => [componentId]
    case GetRuntimeComponentProperty(componentId, componentKey) => [componentId, componentKey]
    case GetRuntimeComponentPropertyDynamic(componentId, propertyKey) => [componentId, propertyKey]
    case SetRuntimeComponentProperties(propertyMap, _) => [propertyMap]
    case SetRuntimeComponentProperty(componentId, componentKey, componentValue) =>
      [componentId, componentKey, componentValue]
    case GetEventChannelSource(channelId) => [channelId]
    case GetEventChannelTarget(channelId) => [channelId]
    case GetComponentEventChannelsIds(componentId) => [componentId]
    case GetDataChannelSource(channelId) => [channelId]
    case GetDataChannelTarget(channelId) => [channelId]
    case GetComponentDataChannelsIds(componentId) => [componentId]
    case GetComponentInputPortIds(componentId) => [componentId]
    case GetComponentOutputPortIds(componentId) => [componentId]
    case GetPortDatatype(componentId, portId) => [componentId, portId]
    case SendDataToInputPort(componentId, portId, value, _) => [componentId, portId, value]
    case TriggerEvent(componentId, eventPortId, _) => [componentId, eventPortId]
    case DownloadModelFromFile(filepath) => [filepath]
    case StoreModel(filepath, modelInXml) => [filepath, modelInXml]
    case StoreData(filepath, data) => [filepath, data]
    case StoreWebappData(webappId, filepath, data) => [webappId, filepath, data]
    case GetWebappData(webappId, filepath) => [webappId, filepath]
    case DeleteModelFromFile(filepath) => [filepath]
    case _ => []
  }

  /** Every argument spliced into a path is one the guard insists on. */
  lemma {:induction false} ParamsAreRequired(call: RestCall)
    ensures forall p :: p in Params(Endpoint(call)) ==> p in RequiredArgs(call)
  {
    var segments := Endpoint(call);
    SegmentsAreGuarded(call);
    forall p | p in Params(segments)
      ensures p in RequiredArgs(call)
    {
      ParamsAreValues(segments, p);
    }
  }

  /** The same, segment by segment. */
  lemma SegmentsAreGuarded(call: RestCall)
    ensures Guarded(call)
  {
    if IsStorageCall(call) {
      StorageSegmentsAreGuarded(call);
    } else if IsComponentCall(call) {
      ComponentSegmentsAreGuarded(call);
    } else if IsModelCallWithArgument(call) {
      ModelSegmentsAreGuarded(call);
    } else {
      FixedSegmentsAreGuarded(call);
    }
  }

  predicate Guarded(call: RestCall)
  {
    forall i :: 0 <= i < |Endpoint(call)| && Endpoint(call)[i].Param? ==> Endpoint(call)[i].value in RequiredArgs(call)
  }

  // Four groups of calls, so that each proof below stays small.
  predicate IsStorageCall(call: RestCall)
  {
    call.DownloadModelFromFile? || call.StoreModel? || call.StoreData? || call.StoreWebappData?
    || call.GetWebappData? || call.DeleteModelFromFile?
  }

  predicate IsComponentCall(call: RestCall)
  {
    call.GetComponentEventChannelsIds? || call.GetComponentDataChannelsIds?
    || call.GetComponentInputPortIds? || call.GetComponentOutputPortIds?
    || call.GetPortDatatype? || call.SendDataToInputPort? || call.TriggerEvent?
  }

  predicate IsModelCallWithArgument(call: RestCall)
  {
    call.Autorun? || call.DeployModelFromFile? || call.GetRuntimeComponentPropertyKeys?
    || call.GetRuntimeComponentProperty? || call.GetRuntimeComponentPropertyDynamic?
    || call.SetRuntimeComponentProperty? || call.GetEventChannelSource? || call.GetEventChannelTarget?
    || call.GetDataChannelSource? || call.GetDataChannelTarget?
  }

  lemma StorageSegmentsAreGuarded(call: RestCall)
    requires IsStorageCall(call)
    ensures Guarded(call)
  {
  }

  lemma ComponentSegmentsAreGuarded(call: RestCall)
    requires IsComponentCall(call)
    ensures Guarded(call)
  {
  }

  lemma ModelSegmentsAreGuarded(call: RestCall)
    requires IsModelCallWithArgument(call)
    ensures Guarded(call)
  {
  }

  lemma FixedSegmentsAreGuarded(call: RestCall)
    requires !IsStorageCall(call) && !IsComponentCall(call) && !IsModelCallWithArgument(call)
    ensures Guarded(call)
  {
  }

  lemma {:induction false} ParamsAreValues(segments: seq<Segment>, p: string)
    requires p in Params(segments)
    ensures exists i :: 0 <= i < |segments| && segments[i] == Param(p)
    decreases |segments|
  {
    if segments[0] != Param(p) {
      ParamsAreValues(segments[1..], p);
      var i :| 0 <= i < |segments[1..]| && segments[1..][i] == Param(p);
      assert segments[i + 1] == Param(p);
    }
  }

  /** The arguments the server reads back from a path: the segments that
      decode, decoded. */
  function DecodedSegments(parts: seq<string>): seq<string>
  {
    if |parts| == 0 then []
    else match DecodeParam(parts[0])
      case Some(text) => [text] + DecodedSegments(parts[1..])
      case None => DecodedSegments(parts[1..])
  }

  /** A fixed word never decodes as an encoded argument. */
  lemma WordDoesNotDecode(w: string)
    requires w != "" && Delimiter !in w
    ensures DecodeParam(w) == None
  {
    SplitWithoutChar(w, Delimiter);
  }

  lemma {:induction false} DecodeRendered(segments: seq<Segment>)
    ensures DecodedSegments(Render(segments)) == Params(segments)
    decreases |segments|
  {
    if |segments| > 0 {
      var rest := segments[1..];
      DecodeRendered(rest);
      assert Render(segments)[1..] == Render(rest);
      match segments[0]
      case Word(w) => WordDoesNotDecode(w);
      case Param(p) => DecodeEncodeParam(p);
    }
  }

  lemma {:induction false} RenderedSegmentsSlashFree(segments: seq<Segment>)
    ensures forall i :: 0 <= i < |segments| ==> '/' !in Render(segments)[i]
    decreases |segments|
  {
    if |segments| > 0 {
      var rest := segments[1..];
      RenderedSegmentsSlashFree(rest);
      if segments[0].Param? {
        EncodeParamHasNoSlash(segments[0].value);
      }
      forall i | 1 <= i < |segments|
        ensures '/' !in Render(segments)[i]
      {
        assert Render(segments)[i] == Render(rest)[i - 1];
      }
    }
  }

  /** Splitting a call's path on `/` gives its rendered segments, and the
      server, decoding the segments that decode, recovers exactly the
      arguments the call spliced in, in order. */
  lemma PathCarriesArguments(call: RestCall)
    ensures Split(PathOf(call), "/") == Render(Endpoint(call))
    ensures DecodedSegments(Split(PathOf(call), "/")) == Params(Endpoint(call))
  {
    var segments := Endpoint(call);
    RenderedSegmentsSlashFree(segments);
    PathSplitsIntoSegments(Render(segments));
    DecodeRendered(segments);
  }

  /** A request that is sent has no empty path segment (no `//`): the guard
      rules out exactly the empty arguments that would produce one. */
  lemma SentPathHasNoEmptySegment(call: RestCall)
    requires Plan(call).Some?
    ensures forall i :: 0 <= i < |Split(Plan(call).value.path, "/")| ==> Split(Plan(call).value.path, "/")[i] != ""
  {
    var segments := Endpoint(call);
    PathCarriesArguments(call);
    ParamsAreRequired(call);
    forall i | 0 <= i < |segments|
      ensures Render(segments)[i] != ""
    {
      RenderAt(segments, i);
      if segments[i].Param? {
        ParamInParams(segments, i);
      }
    }
  }

  lemma {:induction false} RenderAt(segments: seq<Segment>, i: nat)
    requires i < |segments|
    ensures Render(segments)[i] == RenderSegment(segments[i])
    decreases i
  {
    if i > 0 {
      RenderAt(segments[1..], i - 1);
    }
  }

  lemma {:induction false} ParamInParams(segments: seq<Segment>, i: nat)
    requires i < |segments| && segments[i].Param?
    ensures segments[i].value in Params(segments)
    decreases i
  {
    if i > 0 {
      ParamInParams(segments[1..], i - 1);
    }
  }

  /** `getDataChannelTarget` sends the very request `getDataChannelSource`
      sends. */
  lemma DataChannelTargetRequestsSource(channelId: string)
    ensures Plan(GetDataChannelTarget(channelId)) == Plan(GetDataChannelSource(channelId))
  {
    assert Endpoint(GetDataChannelTarget(channelId)) == Endpoint(GetDataChannelSource(channelId));
  }

  /** The event channel pair, by contrast, addresses two different resources. */
  lemma EventChannelTargetDiffersFromSource(channelId: string)
    requires channelId != ""
    ensures Plan(GetEventChannelTarget(channelId)) != Plan(GetEventChannelSource(channelId))
  {
    var target := GetEventChannelTarget(channelId);
    var source := GetEventChannelSource(channelId);
    assert PathOf(target) != PathOf(source) by {
      PathCarriesArguments(target);
      PathCarriesArguments(source);
      RenderAt(Endpoint(target), 5);
      RenderAt(Endpoint(source), 5);
      assert SegTarget != SegSource;
    }
    assert Plan(target).Some? && Plan(target).value.path == PathOf(target);
    assert Plan(source).Some? && Plan(source).value.path == PathOf(source);
  }

  /** The component property request spells out the path the server expects:
      the fixed prefix, then each encoded argument as its own segment. */
  lemma ComponentPropertyPath(componentId: string, componentKey: string)
    ensures PathOf(GetRuntimeComponentProperty(componentId, componentKey))
         == "runtime/model/components/" + EncodeParam(componentId) + "/" + EncodeParam(componentKey)
  {
    var a := EncodeParam(componentId);
    var b := EncodeParam(componentKey);
    var parts := ComponentPropertyParts(componentId, componentKey);
    JoinAllUnfolded(parts);
    assert "runtime" + "/" + "model" == "runtime/model";
    assert "runtime/model" + "/" + "components" + "/" == "runtime/model/components/";
    assert "runtime/model/components" + "/" + a == "runtime/model/components/" + a;
  }

  lemma ComponentPropertyParts(componentId: string, componentKey: string)
    returns (parts: seq<string>)
    ensures parts == ["runtime", "model", "components", EncodeParam(componentId), EncodeParam(componentKey)]
    ensures PathOf(GetRuntimeComponentProperty(componentId, componentKey)) == Path(parts)
  {
    var segments := [Word(SegRuntime), Word(SegModel), Word(SegComponents), Param(componentId), Param(componentKey)];
    assert Endpoint(GetRuntimeComponentProperty(componentId, componentKey)) == segments;
    parts := Render(segments);
    RenderAt(segments, 0);
    RenderAt(segments, 1);
    RenderAt(segments, 2);
    RenderAt(segments, 3);
    RenderAt(segments, 4);
  }
}
