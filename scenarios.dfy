/** End-to-end walks through the dispatcher: each method drives one fresh instance through a
    sequence of public operations and returns what was handed to the delivery client. */
module Scenarios {
  import opened Wrappers
  import opened Maps
  import opened Payloads
  import opened Dispatcher

  function Opts(waitForProfile: Option<bool>, filter: Option<TrackHandlerPayload -> bool>, disabled: Option<bool>): Options {
    Options("client", None, None, waitForProfile, filter, disabled)
  }

  function Anonymous(name: string, info: DeviceInfo, profileId: Option<string>): TrackHandlerPayload {
    Payloads.Track(TrackPayload(name, Some(DeviceProperties(info)), profileId))
  }

  /** A track built from the device globals alone, with no per-call properties. */
  lemma PlainTrack(name: string, info: DeviceInfo)
    ensures Payloads.Track(TrackPayloadFor(Some(DeviceProperties(info)), None, name, None)) == Anonymous(name, info, None)
  {
    OverlayEmpty(DeviceProperties(info));
  }

  /** While waiting for a profile, an anonymous track is held and not sent. */
  lemma HeldOnArrival(o: Options, name: string, info: DeviceInfo)
    requires o == Opts(Some(true), None, None)
    ensures HeldOf(Some(o), None, [Payloads.Track(TrackPayloadFor(Some(DeviceProperties(info)), None, name, None))])
      == [Anonymous(name, info, None)]
    ensures DeliveredOf(Some(o), None, [Payloads.Track(TrackPayloadFor(Some(DeviceProperties(info)), None, name, None))]) == []
  {
    PlainTrack(name, info);
    SingleSend(Some(o), None, Anonymous(name, info, None));
  }

  /** Identified as "u1", the two held tracks go out in order, both tagged with "u1". */
  lemma ReleasedAsU1(o: Options, info: DeviceInfo)
    requires o == Opts(Some(true), None, None)
    ensures DeliveredOf(Some(o), Some("u1"), [Anonymous("a", info, None), Anonymous("b", info, None)])
      == [Anonymous("a", info, Some("u1")), Anonymous("b", info, Some("u1"))]
  {
    var items := [Anonymous("a", info, None), Anonymous("b", info, None)];
    FlushDeliversEverything(o, Some("u1"), items);
    var r := BackFilled(items, Some("u1"));
    assert r[0] == Anonymous("a", info, Some("u1"));
    assert r[1] == Anonymous("b", info, Some("u1"));
  }

  /** A fresh client after `initialize(o)` on a device described by `info`. */
  method Start(o: Options, userAgent: string, info: DeviceInfo) returns (panel: OpenPanel)
    ensures fresh(panel)
    ensures panel.options == Some(o) && panel.global == Some(DeviceProperties(info))
    ensures panel.profileId == None && panel.queue == [] && panel.sent == []
  {
    panel := new OpenPanel();
    panel.Initialize(o, userAgent, info);
    OverlayEmpty(DeviceProperties(info));
  }

  /** `track(name)` on a client waiting for a profile: the anonymous track is queued. */
  method HoldTrack(panel: OpenPanel, name: string, info: DeviceInfo)
    requires panel.options == Some(Opts(Some(true), None, None))
    requires panel.global == Some(DeviceProperties(info)) && panel.profileId == None
    modifies panel`queue, panel`sent
    ensures panel.queue == old(panel.queue) + [Anonymous(name, info, None)] && panel.sent == old(panel.sent)
  {
    HeldOnArrival(panel.options.value, name, info);
    panel.Track(name, None);
  }

  /** `track(name, properties)` on an anonymous client that is not waiting and has no filter:
      the track is sent at once, as built. */
  method DeliverTrack(panel: OpenPanel, name: string, properties: Option<StringMap>)
    requires panel.options == Some(Opts(None, None, None)) && panel.profileId == None
    modifies panel`queue, panel`sent
    ensures panel.queue == old(panel.queue)
    ensures panel.sent == old(panel.sent) + [Payloads.Track(TrackPayloadFor(panel.global, None, name, properties))]
  {
    var t := TrackPayloadFor(panel.global, None, name, properties);
    assert EnsureProfileId(Payloads.Track(t), None) == Payloads.Track(t);
    SingleSend(panel.options, None, Payloads.Track(t));
    panel.Track(name, properties);
  }

  /** Waiting for a profile, two tracks are held; identifying as "u1" sends both, in order,
      tagged with "u1", and nothing else. */
  method WaitThenIdentify(userAgent: string, info: DeviceInfo) returns (delivered: seq<TrackHandlerPayload>, queued: seq<TrackHandlerPayload>)
    ensures delivered == [Anonymous("a", info, Some("u1")), Anonymous("b", info, Some("u1"))]
    ensures queued == []
  {
    var o := Opts(Some(true), None, None);
    var panel := Start(o, userAgent, info);
    HoldTrack(panel, "a", info);
    HoldTrack(panel, "b", info);
    assert panel.queue == [Anonymous("a", info, None), Anonymous("b", info, None)];
    var me := IdentifyPayload("u1", None, None, None, None, None);
    assert !HasPersonalData(me);
    panel.Identify(me);
    ReleasedAsU1(o, info);
    delivered, queued := panel.sent, panel.queue;
  }

  /** Waiting for a profile, `ready` releases the held track, still without a profile id. */
  method ReadyReleasesHeld(userAgent: string, info: DeviceInfo) returns (delivered: seq<TrackHandlerPayload>, queued: seq<TrackHandlerPayload>)
    ensures delivered == [Anonymous("a", info, None)]
    ensures queued == []
  {
    var o := Opts(Some(true), None, None);
    var panel := Start(o, userAgent, info);
    HoldTrack(panel, "a", info);
    assert panel.sent == [] && panel.queue == [Anonymous("a", info, None)];
    panel.Ready();
    SingleSend(Some(o.(waitForProfile := Some(false))), None, Anonymous("a", info, None));
    delivered, queued := panel.sent, panel.queue;
  }

  /** Two calls to `setGlobalProperties` accumulate: a later track carries both keys. */
  method GlobalsAccumulate(userAgent: string, info: DeviceInfo) returns (delivered: seq<TrackHandlerPayload>)
    ensures |delivered| == 1 && delivered[0].Track? && delivered[0].track.properties.Some?
    ensures "a" in delivered[0].track.properties.value && delivered[0].track.properties.value["a"] == "1"
    ensures "b" in delivered[0].track.properties.value && delivered[0].track.properties.value["b"] == "2"
  {
    var panel := Start(Opts(None, None, None), userAgent, info);
    panel.SetGlobalProperties(map["a" := "1"]);
    panel.SetGlobalProperties(map["b" := "2"]);
    assert panel.global.value["a"] == "1" && panel.global.value["b"] == "2";
    DeliverTrack(panel, "x", None);
    delivered := panel.sent;
  }

  /** A per-call property wins over a global one of the same key. */
  method PerCallPropertyWins(userAgent: string, info: DeviceInfo) returns (delivered: seq<TrackHandlerPayload>)
    ensures |delivered| == 1 && delivered[0].Track? && delivered[0].track.properties.Some?
    ensures "lang" in delivered[0].track.properties.value && delivered[0].track.properties.value["lang"] == "fr"
  {
    var panel := Start(Opts(None, None, None), userAgent, info);
    panel.SetGlobalProperties(map["lang" := "en"]);
    DeliverTrack(panel, "x", Some(map["lang" := "fr"]));
    delivered := panel.sent;
  }

  /** A disabled client sends nothing and queues nothing, whatever is called. */
  method DisabledSendsNothing(userAgent: string, info: DeviceInfo, waitForProfile: Option<bool>)
    returns (delivered: seq<TrackHandlerPayload>, queued: seq<TrackHandlerPayload>)
    ensures delivered == [] && queued == []
  {
    var panel := Start(Opts(waitForProfile, None, Some(true)), userAgent, info);
    panel.Track("a", None);
    panel.Identify(IdentifyPayload("u1", Some("Jane"), None, Some("jane@example.com"), None, None));
    panel.Alias(AliasPayload("u1", "anon-1"));
    panel.Increment(IncrementPayload("u1", "logins", Some(1)));
    panel.Decrement(DecrementPayload("u1", "credits", Some(5)));
    panel.Ready();
    panel.Flush();
    delivered, queued := panel.sent, panel.queue;
  }

  /** A filter refusing tracks named "blocked" lets exactly the other track through. */
  method FilterBlocks(userAgent: string, info: DeviceInfo) returns (delivered: seq<TrackHandlerPayload>)
    ensures delivered == [Anonymous("allowed", info, None)]
  {
    var filter := (p: TrackHandlerPayload) => !(p.Track? && p.track.name == "blocked");
    var o := Opts(None, Some(filter), None);
    var panel := Start(o, userAgent, info);
    var blocked, allowed := Anonymous("blocked", info, None), Anonymous("allowed", info, None);
    PlainTrack("blocked", info);
    PlainTrack("allowed", info);
    assert !Accepts(o, blocked) && Accepts(o, allowed);
    SingleSend(Some(o), None, blocked);
    SingleSend(Some(o), None, allowed);
    panel.Track("blocked", None);
    assert panel.sent == [];
    panel.Track("allowed", None);
    delivered := panel.sent;
  }

  /** `clear` forgets profile and globals but not the queue: `ready` still sends the held
      track, with the properties it was built with. */
  method ClearKeepsQueue(userAgent: string, info: DeviceInfo)
    returns (delivered: seq<TrackHandlerPayload>, global: Option<StringMap>, profileId: Option<string>)
    ensures delivered == [Anonymous("a", info, None)]
    ensures global == None && profileId == None
  {
    var o := Opts(Some(true), None, None);
    var panel := Start(o, userAgent, info);
    HoldTrack(panel, "a", info);
    panel.Clear();
    assert panel.sent == [] && panel.queue == [Anonymous("a", info, None)];
    panel.Ready();
    SingleSend(Some(o.(waitForProfile := Some(false))), None, Anonymous("a", info, None));
    delivered, global, profileId := panel.sent, panel.global, panel.profileId;
  }
}
