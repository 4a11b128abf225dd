/** The server event types a client can subscribe to (`ServerEventTypes`) and
    the resource each one listens on (the `switch` in `subscribe`). */
module EventTypes {
  import opened Wrappers
  import opened SplitJoin
  import opened PathEncoding

  datatype EventType =
    | ModelChanged
    | ModelStateChanged
    | EventChannelTransmission
    | DataChannelTransmission
    | PropertyChanged

  /** The string value each event type has on the public surface. */
  function Name(e: EventType): string
  {
    match e
    case ModelChanged => "model_changed"
    case ModelStateChanged => "model_state_changed"
    case EventChannelTransmission => "event_channel_transmission"
    case DataChannelTransmission => "data_channel_transmission"
    case PropertyChanged => "property_changed"
  }

  /** Matches a caller-supplied value against the five names by strict
      equality; any other value is unknown. */
  function ParseEventType(s: string): (r: Option<EventType>)
    ensures r.Some? ==> Name(r.value) == s
    ensures r.None? ==> forall e: EventType :: Name(e) != s
  {
    if s == "model_changed" then Some(ModelChanged)
    else if s == "model_state_changed" then Some(ModelStateChanged)
    else if s == "event_channel_transmission" then Some(EventChannelTransmission)
    else if s == "data_channel_transmission" then Some(DataChannelTransmission)
    else if s == "property_changed" then Some(PropertyChanged)
    else None
  }

  /** One of the five event-type names. */
  predicate IsKnownName(s: string)
  {
    ParseEventType(s).Some?
  }

  /** Every event type is recognised by its own name, so the five names are
      pairwise distinct. */
  lemma ParseName(e: EventType)
    ensures ParseEventType(Name(e)) == Some(e)
  {
  }

  /** The segments of the resource an event type listens on. Only
      `DataChannelTransmission` uses the channel id, as an encoded segment. */
  function ResourceSegments(e: EventType, channelId: string): (segments: seq<string>)
    ensures 3 <= |segments| <= 6
  {
    match e
    case ModelChanged => ["runtime", "deployment", "listener"]
    case ModelStateChanged => ["runtime", "model", "state", "listener"]
    case EventChannelTransmission => ["runtime", "model", "channels", "event", "listener"]
    case DataChannelTransmission => ["runtime", "model", "channels", "data", EncodeParam(channelId), "listener"]
    case PropertyChanged => ["runtime", "model", "components", "properties", "listener"]
  }

  /** The resource path, relative to the base URI, that `subscribe` connects
      to for an event type. There is no guard on the channel id: an empty id
      gives `runtime/model/channels/data//listener`. */
  function Resource(e: EventType, channelId: string): string
  {
    match e
    case ModelChanged => "runtime/deployment/listener"
    case ModelStateChanged => "runtime/model/state/listener"
    case EventChannelTransmission => "runtime/model/channels/event/listener"
    case DataChannelTransmission => "runtime/model/channels/data/" + EncodeParam(channelId) + "/listener"
    case PropertyChanged => "runtime/model/components/properties/listener"
  }

  /** Every resource path is its segments joined by `/`. */
  lemma ResourceIsPath(e: EventType, channelId: string)
    ensures Resource(e, channelId) == Path(ResourceSegments(e, channelId))
  {
    var segments := ResourceSegments(e, channelId);
    JoinAllUnfolded(segments);
    if e == DataChannelTransmission {
      DataChannelPath(channelId);
    } else {
      FixedResourceIsPath(e, channelId);
    }
  }

  lemma DataChannelPath(channelId: string)
    ensures Resource(DataChannelTransmission, channelId)
         == JoinedSegments(ResourceSegments(DataChannelTransmission, channelId))
  {
    var id := EncodeParam(channelId);
    assert "runtime" + "/" + "model" == "runtime/model";
    assert "runtime/model" + "/" + "channels" == "runtime/model/channels";
    assert "runtime/model/channels" + "/" + "data" + "/" == "runtime/model/channels/data/";
    assert "runtime/model/channels/data" + "/" + id == "runtime/model/channels/data/" + id;
    assert ("runtime/model/channels/data/" + id) + "/" + "listener" == "runtime/model/channels/data/" + id + "/listener";
  }

  lemma FixedResourceIsPath(e: EventType, channelId: string)
    requires e != DataChannelTransmission
    ensures Resource(e, channelId) == JoinedSegments(ResourceSegments(e, channelId))
  {
    match e
    case ModelChanged =>
      assert "runtime" + "/" + "deployment" == "runtime/deployment";
      assert "runtime/deployment" + "/" + "listener" == "runtime/deployment/listener";
    case ModelStateChanged =>
      assert "runtime" + "/" + "model" == "runtime/model";
      assert "runtime/model" + "/" + "state" == "runtime/model/state";
      assert "runtime/model/state" + "/" + "listener" == "runtime/model/state/listener";
    case EventChannelTransmission => ChannelOrPropertyResourceIsPath(e, channelId);
    case PropertyChanged => ChannelOrPropertyResourceIsPath(e, channelId);
  }

  /** The two fixed resources below `runtime/model` with more than three
      segments. */
  lemma ChannelOrPropertyResourceIsPath(e: EventType, channelId: string)
    requires e == EventChannelTransmission || e == PropertyChanged
    ensures Resource(e, channelId) == JoinedSegments(ResourceSegments(e, channelId))
  {
    assert "runtime" + "/" + "model" == "runtime/model";
    match e
    case EventChannelTransmission =>
      assert "runtime/model" + "/" + "channels" == "runtime/model/channels";
      assert "runtime/model/channels" + "/" + "event" == "runtime/model/channels/event";
      assert "runtime/model/channels/event" + "/" + "listener" == "runtime/model/channels/event/listener";
    case PropertyChanged =>
      assert "runtime/model" + "/" + "components" == "runtime/model/components";
      assert "runtime/model/components" + "/" + "properties" == "runtime/model/components/properties";
      assert "runtime/model/components/properties" + "/" + "listener"
          == "runtime/model/components/properties/listener";
  }

  /** Splitting a resource path on `/` yields its segments. */
  lemma ResourceSplitsIntoSegments(e: EventType, channelId: string)
    ensures Split(Resource(e, channelId), "/") == ResourceSegments(e, channelId)
  {
    ResourceIsPath(e, channelId);
    SegmentsSlashFree(e, channelId);
    PathSplitsIntoSegments(ResourceSegments(e, channelId));
  }

  lemma SegmentsSlashFree(e: EventType, channelId: string)
    ensures forall i :: 0 <= i < |ResourceSegments(e, channelId)| ==> '/' !in ResourceSegments(e, channelId)[i]
  {
    EncodeParamHasNoSlash(channelId);
  }

  /** The resource path determines the event type, and for data channel
      transmissions also the channel id. */
  lemma ResourceIdentifiesSubscription(e1: EventType, c1: string, e2: EventType, c2: string)
    requires Resource(e1, c1) == Resource(e2, c2)
    ensures e1 == e2
    ensures e1 == DataChannelTransmission ==> c1 == c2
  {
    var s1 := ResourceSegments(e1, c1);
    var s2 := ResourceSegments(e2, c2);
    ResourceSplitsIntoSegments(e1, c1);
    ResourceSplitsIntoSegments(e2, c2);
    assert s1 == s2;
    if e1 == DataChannelTransmission && e2 == DataChannelTransmission {
      assert s1[4] == s2[4];
      EncodeParamInjective(c1, c2);
    }
  }

  /** The server recovers the channel id from the data channel resource. */
  lemma DataChannelIdRecoverable(channelId: string)
    ensures var parts := Split(Resource(DataChannelTransmission, channelId), "/");
            |parts| == 6 && DecodeParam(parts[4]) == Some(channelId)
  {
    ResourceSplitsIntoSegments(DataChannelTransmission, channelId);
    DecodeEncodeParam(channelId);
  }
}
