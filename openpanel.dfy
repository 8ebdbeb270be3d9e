/** The dispatcher (`OpenPanel` actor): profile identity, global properties, the pending
    queue and the send-or-queue decision. Payloads handed to the delivery client are
    recorded, in order, in the outbox `sent`. */
module Dispatcher {
  import opened Wrappers
  import opened Maps
  import opened Payloads
  import opened ApiClient

  const DefaultApiUrl: string := "https://api.openpanel.dev"
  const SdkName: string := "swift"
  const SdkVersion: string := "0.1.0"

  /** `OpenPanel.Options`. The `Bool?` settings count only when they are `true`. */
  datatype Options = Options(
    clientId: string,
    clientSecret: Option<string>,
    apiUrl: Option<string>,
    waitForProfile: Option<bool>,
    filter: Option<TrackHandlerPayload -> bool>,
    disabled: Option<bool>)

  /** What the platform probe reports once per initialisation. */
  datatype DeviceInfo = DeviceInfo(brand: string, device: string, os: string, osVersion: string, model: string)

  // ---------------------------------------------------------------------------
  // The send decision

  predicate IsDisabled(o: Options) {
    o.disabled == Some(true)
  }

  predicate Accepts(o: Options, p: TrackHandlerPayload) {
    o.filter.None? || o.filter.value(p)
  }

  /** The wait-for-profile gate is closed: waiting is on and no profile is known yet. */
  predicate Waiting(o: Options, profileId: Option<string>) {
    o.waitForProfile == Some(true) && profileId.None?
  }

  /** `ensureProfileId`: a track payload without a profile id takes the current one;
      every other payload is left as it is. */
  function EnsureProfileId(p: TrackHandlerPayload, profileId: Option<string>): (r: TrackHandlerPayload)
    ensures Tag(r) == Tag(p)
    ensures r.Track? ==> r.track.name == p.track.name && r.track.properties == p.track.properties
    ensures r.Track? ==> r.track.profileId == if p.track.profileId.Some? then p.track.profileId else profileId
    ensures !r.Track? ==> r == p
  {
    match p
    case Track(t) => if t.profileId.None? then Track(t.(profileId := profileId)) else p
    case _ => p
  }

  /** Where `_send` takes a payload, checked in the source's order. */
  datatype Route = NotInitialized | Disabled | Filtered | Held | Deliver(payload: TrackHandlerPayload)

  function RouteOf(options: Option<Options>, profileId: Option<string>, p: TrackHandlerPayload): (r: Route)
    ensures r.NotInitialized? <==> options.None?
    ensures r.Disabled? <==> options.Some? && IsDisabled(options.value)
    ensures r.Filtered? <==> options.Some? && !IsDisabled(options.value) && !Accepts(options.value, p)
    ensures r.Held? <==>
      options.Some? && !IsDisabled(options.value) && Accepts(options.value, p) && Waiting(options.value, profileId)
    ensures r.Deliver? ==> r.payload == EnsureProfileId(p, profileId)
  {
    if options.None? then NotInitialized
    else if IsDisabled(options.value) then Disabled
    else if !Accepts(options.value, p) then Filtered
    else if Waiting(options.value, profileId) then Held
    else Deliver(EnsureProfileId(p, profileId))
  }

  /** The payloads among `items` that the send decision appends to the queue, in order. */
  function HeldOf(options: Option<Options>, profileId: Option<string>, items: seq<TrackHandlerPayload>): (r: seq<TrackHandlerPayload>)
    ensures |r| <= |items|
    ensures forall q :: q in r ==> q in items
  {
    if items == [] then []
    else
      var init, last := items[..|items| - 1], items[|items| - 1];
      assert forall q :: q in init ==> q in items;
      HeldOf(options, profileId, init) + (if RouteOf(options, profileId, last).Held? then [last] else [])
  }

  /** The payloads the send decision hands to the delivery client for `items`, in order. */
  function DeliveredOf(options: Option<Options>, profileId: Option<string>, items: seq<TrackHandlerPayload>): (r: seq<TrackHandlerPayload>)
    ensures |r| + |HeldOf(options, profileId, items)| <= |items|
  {
    if items == [] then []
    else
      var init, last := items[..|items| - 1], items[|items| - 1];
      var route := RouteOf(options, profileId, last);
      DeliveredOf(options, profileId, init) + (if route.Deliver? then [route.payload] else [])
  }

  /** The payloads among `items` that the filter lets through, in order. */
  function Accepted(o: Options, items: seq<TrackHandlerPayload>): (r: seq<TrackHandlerPayload>)
    ensures |r| <= |items|
    ensures forall q :: q in r ==> q in items && Accepts(o, q)
  {
    if items == [] then []
    else
      var init, last := items[..|items| - 1], items[|items| - 1];
      assert forall q :: q in init ==> q in items;
      Accepted(o, init) + (if Accepts(o, last) then [last] else [])
  }

  /** `items` with the profile id back-filled into every track payload that lacks one. */
  function BackFilled(items: seq<TrackHandlerPayload>, profileId: Option<string>): (r: seq<TrackHandlerPayload>)
    ensures |r| == |items|
    ensures forall i :: 0 <= i < |items| ==> r[i] == EnsureProfileId(items[i], profileId)
  {
    if items == [] then []
    else BackFilled(items[..|items| - 1], profileId) + [EnsureProfileId(items[|items| - 1], profileId)]
  }

  // ---------------------------------------------------------------------------
  // What the send decision does to a whole sequence of payloads (a flush, or one send)

  /** For a single payload: it is queued exactly when the decision holds it, and sent (in its
      back-filled form) exactly when the decision delivers it. */
  lemma SingleSend(options: Option<Options>, profileId: Option<string>, p: TrackHandlerPayload)
    ensures HeldOf(options, profileId, [p]) == if RouteOf(options, profileId, p).Held? then [p] else []
    ensures DeliveredOf(options, profileId, [p]) ==
      if RouteOf(options, profileId, p).Deliver? then [RouteOf(options, profileId, p).payload] else []
  {
    assert [p][..0] == [];
  }

  /** Resubmitting one more item of a snapshot extends what is queued and what is sent by
      what the decision does with that item alone. */
  lemma SendStep(options: Option<Options>, profileId: Option<string>, items: seq<TrackHandlerPayload>, i: nat)
    requires i < |items|
    ensures HeldOf(options, profileId, items[..i + 1]) == HeldOf(options, profileId, items[..i]) + HeldOf(options, profileId, [items[i]])
    ensures DeliveredOf(options, profileId, items[..i + 1]) == DeliveredOf(options, profileId, items[..i]) + DeliveredOf(options, profileId, [items[i]])
  {
    assert items[..i + 1][..i] == items[..i];
    SingleSend(options, profileId, items[i]);
  }

  /** Before initialisation nothing is queued and nothing is sent. */
  lemma {:induction false} NothingLeavesUninitialized(profileId: Option<string>, items: seq<TrackHandlerPayload>)
    ensures HeldOf(None, profileId, items) == [] && DeliveredOf(None, profileId, items) == []
  {
    if items != [] {
      NothingLeavesUninitialized(profileId, items[..|items| - 1]);
    }
  }

  /** A disabled client drops everything, whatever its filter and its wait setting. */
  lemma {:induction false} NothingLeavesWhenDisabled(o: Options, profileId: Option<string>, items: seq<TrackHandlerPayload>)
    requires IsDisabled(o)
    ensures HeldOf(Some(o), profileId, items) == [] && DeliveredOf(Some(o), profileId, items) == []
  {
    if items != [] {
      NothingLeavesWhenDisabled(o, profileId, items[..|items| - 1]);
    }
  }

  /** A payload the filter refuses is neither queued nor sent, whether or not the client
      waits for a profile. */
  lemma FilteredIsDropped(o: Options, profileId: Option<string>, p: TrackHandlerPayload)
    requires o.filter.Some? && !o.filter.value(p)
    ensures HeldOf(Some(o), profileId, [p]) == [] && DeliveredOf(Some(o), profileId, [p]) == []
  {
    SingleSend(Some(o), profileId, p);
  }

  /** While the gate is closed, exactly the accepted payloads are queued, in order, and
      nothing is sent. */
  lemma {:induction false} HeldWhileWaiting(o: Options, profileId: Option<string>, items: seq<TrackHandlerPayload>)
    requires !IsDisabled(o) && Waiting(o, profileId)
    ensures HeldOf(Some(o), profileId, items) == Accepted(o, items)
    ensures DeliveredOf(Some(o), profileId, items) == []
  {
    if items != [] {
      HeldWhileWaiting(o, profileId, items[..|items| - 1]);
    }
  }

  /** While the gate is open, nothing is queued and exactly the accepted payloads are sent,
      in order, each with the current profile id back-filled. */
  lemma {:induction false} DeliveredWhileOpen(o: Options, profileId: Option<string>, items: seq<TrackHandlerPayload>)
    requires !IsDisabled(o) && !Waiting(o, profileId)
    ensures HeldOf(Some(o), profileId, items) == []
    ensures DeliveredOf(Some(o), profileId, items) == BackFilled(Accepted(o, items), profileId)
  {
    if items != [] {
      DeliveredWhileOpen(o, profileId, items[..|items| - 1]);
    }
  }

  /** Once a profile is known, or once waiting is switched off, the send decision never
      queues. */
  lemma NothingHeldWhenGateOpen(options: Option<Options>, profileId: Option<string>, items: seq<TrackHandlerPayload>)
    requires options.Some? ==> !Waiting(options.value, profileId)
    ensures HeldOf(options, profileId, items) == []
  {
    if options.None? {
      NothingLeavesUninitialized(profileId, items);
    } else if IsDisabled(options.value) {
      NothingLeavesWhenDisabled(options.value, profileId, items);
    } else {
      DeliveredWhileOpen(options.value, profileId, items);
    }
  }

  lemma {:induction false} AcceptedAll(o: Options, items: seq<TrackHandlerPayload>)
    requires forall i :: 0 <= i < |items| ==> Accepts(o, items[i])
    ensures Accepted(o, items) == items
  {
    if items != [] {
      AcceptedAll(o, items[..|items| - 1]);
    }
  }

  /** With the gate open, nothing disabled and nothing filtered out, the payloads go out
      all of them, in their original order, back-filled, and none stays queued. */
  lemma FlushDeliversEverything(o: Options, profileId: Option<string>, items: seq<TrackHandlerPayload>)
    requires !IsDisabled(o) && !Waiting(o, profileId)
    requires forall i :: 0 <= i < |items| ==> Accepts(o, items[i])
    ensures HeldOf(Some(o), profileId, items) == []
    ensures DeliveredOf(Some(o), profileId, items) == BackFilled(items, profileId)
  {
    DeliveredWhileOpen(o, profileId, items);
    AcceptedAll(o, items);
  }

  /** Back-filling is settled by the first profile it sees: doing it again changes nothing. */
  lemma BackFillSettles(p: TrackHandlerPayload, first: Option<string>, later: Option<string>)
    requires first.Some?
    ensures EnsureProfileId(EnsureProfileId(p, first), later) == EnsureProfileId(p, first)
  {
  }

  // ---------------------------------------------------------------------------
  // Payload construction

  /** The track payload `_track` builds: global properties overlaid with the per-call ones,
      and the profile id from a per-call "profileId" property, else the current one. */
  function TrackPayloadFor(global: Option<StringMap>, profileId: Option<string>,
                           name: string, properties: Option<StringMap>): (t: TrackPayload)
    ensures t.name == name && t.properties.Some?
    ensures t.properties.value.Keys == global.GetOr(map[]).Keys + properties.GetOr(map[]).Keys
    ensures forall k :: k in properties.GetOr(map[]) ==> t.properties.value[k] == properties.value[k]
    ensures forall k :: k in global.GetOr(map[]) && k !in properties.GetOr(map[]) ==>
      t.properties.value[k] == global.value[k]
    ensures properties.Some? && "profileId" in properties.value ==> t.profileId == Some(properties.value["profileId"])
    ensures !(properties.Some? && "profileId" in properties.value) ==> t.profileId == profileId
  {
    var merged := Overlay(global.GetOr(map[]), properties.GetOr(map[]));
    var explicit := if properties.Some? && "profileId" in properties.value then Some(properties.value["profileId"]) else None;
    TrackPayload(name, Some(merged), if explicit.Some? then explicit else profileId)
  }

  /** An identify call carries personal data: a name, e-mail or avatar, or non-empty
      properties. */
  predicate HasPersonalData(p: IdentifyPayload)
    ensures !HasPersonalData(p) <==>
      p == IdentifyPayload(p.profileId, None, None, None, None, None)
      || p == IdentifyPayload(p.profileId, None, None, None, None, Some(map[]))
  {
    p.firstName.Some? || p.lastName.Some? || p.email.Some? || p.avatar.Some?
    || (p.properties.Some? && |p.properties.value| > 0)
  }

  /** The identify payload `_identify` sends: with global properties present, its properties
      become the globals overlaid with its own; otherwise it is sent as given. */
  function IdentifyWithGlobal(p: IdentifyPayload, global: Option<StringMap>): (r: IdentifyPayload)
    ensures r.profileId == p.profileId && r.firstName == p.firstName && r.lastName == p.lastName
    ensures r.email == p.email && r.avatar == p.avatar
    ensures global.None? ==> r.properties == p.properties
    ensures global.Some? ==> r.properties.Some?
    ensures global.Some? ==> r.properties.value.Keys == global.value.Keys + p.properties.GetOr(map[]).Keys
    ensures global.Some? ==>
      forall k :: k in p.properties.GetOr(map[]) ==> r.properties.value[k] == p.properties.value[k]
    ensures global.Some? ==>
      forall k :: k in global.value && k !in p.properties.GetOr(map[]) ==> r.properties.value[k] == global.value[k]
  {
    if global.Some? then p.(properties := Some(Overlay(global.value, p.properties.GetOr(map[])))) else p
  }

  /** The default headers `_initialize` gives the delivery client. */
  function DefaultHeaders(o: Options, userAgent: string): (h: StringMap)
    ensures {"openpanel-client-id", "openpanel-sdk-name", "openpanel-sdk-version", "user-agent"} <= h.Keys
    ensures h["openpanel-client-id"] == o.clientId && h["openpanel-sdk-name"] == SdkName
    ensures h["openpanel-sdk-version"] == SdkVersion && h["user-agent"] == userAgent
    ensures "openpanel-client-secret" in h <==> o.clientSecret.Some?
    ensures o.clientSecret.Some? ==> h["openpanel-client-secret"] == o.clientSecret.value
    ensures h.Keys <= {"openpanel-client-id", "openpanel-sdk-name", "openpanel-sdk-version", "user-agent", "openpanel-client-secret"}
  {
    var base := map["openpanel-client-id" := o.clientId, "openpanel-sdk-name" := SdkName,
                    "openpanel-sdk-version" := SdkVersion, "user-agent" := userAgent];
    if o.clientSecret.Some? then base["openpanel-client-secret" := o.clientSecret.value] else base
  }

  /** The reserved global properties `_initialize` writes from the device probe. */
  function DeviceProperties(info: DeviceInfo): (m: StringMap)
    ensures m.Keys == {"__brand", "__device", "__os", "__osVersion", "__model"}
  {
    map["__brand" := info.brand, "__device" := info.device, "__os" := info.os,
        "__osVersion" := info.osVersion, "__model" := info.model]
  }

  /** Assigning the five reserved keys one after another is overlaying them all at once. */
  lemma DeviceWrites(g: StringMap, info: DeviceInfo)
    ensures g["__brand" := info.brand]["__device" := info.device]["__os" := info.os]
             ["__osVersion" := info.osVersion]["__model" := info.model]
         == Overlay(g, DeviceProperties(info))
  {
    var lhs := g["__brand" := info.brand]["__device" := info.device]["__os" := info.os]
               ["__osVersion" := info.osVersion]["__model" := info.model];
    var rhs := Overlay(g, DeviceProperties(info));
    assert lhs.Keys == rhs.Keys;
    forall k | k in lhs
      ensures lhs[k] == rhs[k]
    {
    }
  }

  // ---------------------------------------------------------------------------
  // The dispatcher

  class OpenPanel {
    const api: Api
    var profileId: Option<string>
    var global: Option<StringMap>
    var queue: seq<TrackHandlerPayload>
    var options: Option<Options>
    /** Every payload handed to the delivery client, in order. */
    var sent: seq<TrackHandlerPayload>

    constructor ()
      ensures profileId == None && global == None && queue == [] && options == None && sent == []
      ensures fresh(api) && api.baseUrl == DefaultApiUrl && api.headers == ConfiguredHeaders(None)
      ensures api.maxRetries == DefaultMaxRetries && api.initialRetryDelayMs == DefaultInitialRetryDelayMs
    {
      api := new Api(Config(DefaultApiUrl, None, None, None));
      profileId := None;
      global := None;
      queue := [];
      options := None;
      sent := [];
    }

    /** `_send`: drop when not initialised, when disabled or when the filter refuses; queue
        while waiting for a profile; otherwise deliver with the profile id back-filled. */
    method Send(p: TrackHandlerPayload)
      modifies this`queue, this`sent
      ensures queue == old(queue) + HeldOf(options, profileId, [p])
      ensures sent == old(sent) + DeliveredOf(options, profileId, [p])
    {
      if options.None? {
        return;
      }
      var o := options.value;
      if o.disabled == Some(true) {
        return;
      }
      if o.filter.Some? && !o.filter.value(p) {
        return;
      }
      if o.waitForProfile == Some(true) && profileId.None? {
        queue := queue + [p];
        return;
      }
      sent := sent + [EnsureProfileId(p, profileId)];
    }

    /** `flush`: take the whole queue, leave an empty one, and resubmit the taken payloads in
        order; those the decision holds again land in the fresh queue. */
    method Flush()
      modifies this`queue, this`sent
      ensures queue == HeldOf(options, profileId, old(queue))
      ensures sent == old(sent) + DeliveredOf(options, profileId, old(queue))
    {
      var snapshot := queue;
      queue := [];
      for i := 0 to |snapshot|
        invariant queue == HeldOf(options, profileId, snapshot[..i])
        invariant sent == old(sent) + DeliveredOf(options, profileId, snapshot[..i])
      {
        SendStep(options, profileId, snapshot, i);
        Send(snapshot[i]);
      }
      assert snapshot[..|snapshot|] == snapshot;
    }

    /** `_initialize`: store the options, reconfigure the delivery client and add the
        device's reserved properties to the globals. */
    method Initialize(o: Options, userAgent: string, info: DeviceInfo)
      modifies this`options, this`global, api
      ensures options == Some(o)
      ensures api.baseUrl == o.apiUrl.GetOr(DefaultApiUrl)
      ensures api.headers == ConfiguredHeaders(Some(DefaultHeaders(o, userAgent)))
      ensures api.maxRetries == DefaultMaxRetries && api.initialRetryDelayMs == DefaultInitialRetryDelayMs
      ensures global == Some(Overlay(old(global).GetOr(map[]), DeviceProperties(info)))
    {
      options := Some(o);
      var defaultHeaders := map["openpanel-client-id" := o.clientId, "openpanel-sdk-name" := SdkName,
                                "openpanel-sdk-version" := SdkVersion, "user-agent" := userAgent];
      if o.clientSecret.Some? {
        defaultHeaders := defaultHeaders["openpanel-client-secret" := o.clientSecret.value];
      }
      api.UpdateConfig(Config(o.apiUrl.GetOr(DefaultApiUrl), Some(defaultHeaders), None, None));
      if global.None? {
        global := Some(map[]);
      }
      var g := global.value;
      DeviceWrites(g, info);
      g := g["__brand" := info.brand];
      g := g["__device" := info.device];
      g := g["__os" := info.os];
      g := g["__osVersion" := info.osVersion];
      g := g["__model" := info.model];
      global := Some(g);
    }

    /** `_ready`: switch waiting off (when initialised) and flush; afterwards the queue is
        empty. */
    method Ready()
      modifies this`options, this`queue, this`sent
      ensures options == if old(options).Some? then Some(old(options).value.(waitForProfile := Some(false))) else None
      ensures queue == []
      ensures sent == old(sent) + DeliveredOf(options, profileId, old(queue))
    {
      if options.Some? {
        options := Some(options.value.(waitForProfile := Some(false)));
      }
      Flush();
      NothingHeldWhenGateOpen(options, profileId, old(queue));
    }

    /** `_setGlobalProperties`: adopt the map when there are no globals yet, otherwise assign
        its entries one by one over the existing ones. */
    method SetGlobalProperties(properties: StringMap)
      modifies this`global
      ensures old(global).None? ==> global == Some(properties)
      ensures old(global).Some? ==> global == Some(Overlay(old(global).value, properties))
    {
      if global.Some? {
        var existing := global.value;
        var pending := properties.Keys;
        assert Without(properties, pending) == map[];
        while pending != {}
          invariant pending <= properties.Keys
          invariant existing == Overlay(old(global).value, Without(properties, pending))
          decreases pending
        {
          var key :| key in pending;
          OverlayStep(old(global).value, properties, pending, key);
          existing := existing[key := properties[key]];
          pending := pending - {key};
        }
        assert Without(properties, {}) == properties;
        global := Some(existing);
      } else {
        global := Some(properties);
      }
    }

    /** `_track`. */
    method Track(name: string, properties: Option<StringMap>)
      modifies this`queue, this`sent
      ensures queue == old(queue) + HeldOf(options, profileId, [Payloads.Track(TrackPayloadFor(global, profileId, name, properties))])
      ensures sent == old(sent) + DeliveredOf(options, profileId, [Payloads.Track(TrackPayloadFor(global, profileId, name, properties))])
    {
      var merged := global.GetOr(map[]);
      if properties.Some? {
        merged := Overlay(merged, properties.value);
      }
      var explicit := if properties.Some? && "profileId" in properties.value then Some(properties.value["profileId"]) else None;
      var payload := TrackPayload(name, Some(merged), if explicit.Some? then explicit else profileId);
      assert Overlay(global.GetOr(map[]), map[]) == global.GetOr(map[]);
      assert payload == TrackPayloadFor(global, profileId, name, properties);
      Send(Payloads.Track(payload));
    }

    /** `_identify`: set the profile id, flush (nothing can stay queued once a profile is
        known), then send the identify payload only when it carries personal data. */
    method Identify(payload: IdentifyPayload)
      modifies this`profileId, this`queue, this`sent
      ensures profileId == Some(payload.profileId)
      ensures queue == []
      ensures sent == old(sent) + DeliveredOf(options, profileId, old(queue))
        + (if HasPersonalData(payload)
           then DeliveredOf(options, profileId, [Payloads.Identify(IdentifyWithGlobal(payload, global))])
           else [])
    {
      profileId := Some(payload.profileId);
      Flush();
      NothingHeldWhenGateOpen(options, profileId, old(queue));
      if payload.firstName.Some? || payload.lastName.Some? || payload.email.Some? || payload.avatar.Some?
         || !(if payload.properties.Some? then |payload.properties.value| == 0 else true)
      {
        var updated := payload;
        if global.Some? {
          var mergedProperties := global.value;
          if payload.properties.Some? {
            mergedProperties := Overlay(mergedProperties, payload.properties.value);
          }
          updated := updated.(properties := Some(mergedProperties));
        }
        assert global.Some? ==> Overlay(global.value, map[]) == global.value;
        assert updated == IdentifyWithGlobal(payload, global);
        NothingHeldWhenGateOpen(options, profileId, [Payloads.Identify(updated)]);
        Send(Payloads.Identify(updated));
      }
    }

    method Alias(payload: AliasPayload)
      modifies this`queue, this`sent
      ensures queue == old(queue) + HeldOf(options, profileId, [Payloads.Alias(payload)])
      ensures sent == old(sent) + DeliveredOf(options, profileId, [Payloads.Alias(payload)])
    {
      Send(Payloads.Alias(payload));
    }

    method Increment(payload: IncrementPayload)
      modifies this`queue, this`sent
      ensures queue == old(queue) + HeldOf(options, profileId, [Payloads.Increment(payload)])
      ensures sent == old(sent) + DeliveredOf(options, profileId, [Payloads.Increment(payload)])
    {
      Send(Payloads.Increment(payload));
    }

    method Decrement(payload: DecrementPayload)
      modifies this`queue, this`sent
      ensures queue == old(queue) + HeldOf(options, profileId, [Payloads.Decrement(payload)])
      ensures sent == old(sent) + DeliveredOf(options, profileId, [Payloads.Decrement(payload)])
    {
      Send(Payloads.Decrement(payload));
    }

    /** `_clear`: forget the profile and the globals; the queue and the options stay. */
    method Clear()
      modifies this`profileId, this`global
      ensures profileId == None && global == None
    {
      profileId := None;
      global := None;
    }
  }
}
