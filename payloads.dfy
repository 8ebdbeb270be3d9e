/** The five event payloads and the `{type, payload}` envelope they travel in. */
module Payloads {
  import opened Wrappers
  import opened Maps
  import opened Json

  datatype TrackPayload = TrackPayload(name: string, properties: Option<StringMap>, profileId: Option<string>)

  datatype IdentifyPayload = IdentifyPayload(
    profileId: string,
    firstName: Option<string>,
    lastName: Option<string>,
    email: Option<string>,
    avatar: Option<string>,
    properties: Option<StringMap>)

  datatype AliasPayload = AliasPayload(profileId: string, alias: string)

  datatype IncrementPayload = IncrementPayload(profileId: string, property: string, value: Option<Int64>)

  datatype DecrementPayload = DecrementPayload(profileId: string, property: string, value: Option<Int64>)

  /** `TrackHandlerPayload`: the tagged union every dispatched event is. */
  datatype TrackHandlerPayload =
    | Track(track: TrackPayload)
    | Increment(increment: IncrementPayload)
    | Decrement(decrement: DecrementPayload)
    | Alias(alias: AliasPayload)
    | Identify(identify: IdentifyPayload)

  /** The failures `JSONDecoder` reports, with the key they concern ("" for the value itself). */
  datatype DecodeError =
    | KeyNotFound(key: string)
    | ValueNotFound(key: string)
    | TypeMismatch(key: string)
    | DataCorrupted(key: string)

  const KnownTags: set<string> := {"track", "increment", "decrement", "alias", "identify"}

  /** The discriminator `encode(to:)` writes under "type". */
  function Tag(p: TrackHandlerPayload): (tag: string)
    ensures tag in KnownTags
  {
    match p
    case Track(_) => "track"
    case Increment(_) => "increment"
    case Decrement(_) => "decrement"
    case Alias(_) => "alias"
    case Identify(_) => "identify"
  }

  // ---------------------------------------------------------------------------
  // Field encoders: synthesized `Codable` writes every present field and omits nil ones.

  function OptField(key: string, v: Option<Json>): map<string, Json> {
    if v.Some? then map[key := v.value] else map[]
  }

  function EncodeStringMap(m: StringMap): Json {
    JObject(map k | k in m :: JString(m[k]))
  }

  function OptString(s: Option<string>): Option<Json> {
    if s.Some? then Some(JString(s.value)) else None
  }

  function OptStringMap(m: Option<StringMap>): Option<Json> {
    if m.Some? then Some(EncodeStringMap(m.value)) else None
  }

  function OptInt(n: Option<Int64>): Option<Json> {
    if n.Some? then Some(JNumber(n.value as int)) else None
  }

  function EncodeTrack(t: TrackPayload): (j: Json)
    ensures j.JObject? && "name" in j.fields && j.fields["name"] == JString(t.name)
    ensures "properties" in j.fields <==> t.properties.Some?
    ensures "profileId" in j.fields <==> t.profileId.Some?
    ensures t.profileId.Some? ==> j.fields["profileId"] == JString(t.profileId.value)
    ensures j.fields.Keys <= {"name", "properties", "profileId"}
  {
    JObject(map["name" := JString(t.name)]
      + OptField("properties", OptStringMap(t.properties))
      + OptField("profileId", OptString(t.profileId)))
  }

  /** The value synthesized `Codable` writes for each key of an identify payload (None: omitted). */
  function IdentifyField(t: IdentifyPayload, key: string): Option<Json> {
    if key == "profileId" then Some(JString(t.profileId))
    else if key == "firstName" then OptString(t.firstName)
    else if key == "lastName" then OptString(t.lastName)
    else if key == "email" then OptString(t.email)
    else if key == "avatar" then OptString(t.avatar)
    else if key == "properties" then OptStringMap(t.properties)
    else None
  }

  const IdentifyKeys: set<string> := {"profileId", "firstName", "lastName", "email", "avatar", "properties"}

  function EncodeIdentify(t: IdentifyPayload): (j: Json)
    ensures j.JObject? && "profileId" in j.fields && j.fields["profileId"] == JString(t.profileId)
    ensures "firstName" in j.fields <==> t.firstName.Some?
    ensures "lastName" in j.fields <==> t.lastName.Some?
    ensures "email" in j.fields <==> t.email.Some?
    ensures "avatar" in j.fields <==> t.avatar.Some?
    ensures "properties" in j.fields <==> t.properties.Some?
    ensures j.fields.Keys <= IdentifyKeys
  {
    JObject(map k | k in IdentifyKeys && IdentifyField(t, k).Some? :: IdentifyField(t, k).value)
  }

  function EncodeAlias(t: AliasPayload): (j: Json)
    ensures j.JObject? && j.fields.Keys == {"profileId", "alias"}
    ensures j.fields["profileId"] == JString(t.profileId) && j.fields["alias"] == JString(t.alias)
  {
    JObject(map["profileId" := JString(t.profileId), "alias" := JString(t.alias)])
  }

  function EncodeCounter(profileId: string, property: string, value: Option<Int64>): (j: Json)
    ensures j.JObject? && {"profileId", "property"} <= j.fields.Keys <= {"profileId", "property", "value"}
    ensures j.fields["profileId"] == JString(profileId) && j.fields["property"] == JString(property)
    ensures "value" in j.fields <==> value.Some?
    ensures value.Some? ==> j.fields["value"] == JNumber(value.value as int)
  {
    JObject(map["profileId" := JString(profileId), "property" := JString(property)]
      + OptField("value", OptInt(value)))
  }

  /** `TrackHandlerPayload.encode(to:)`: the envelope `{type: Tag(p), payload: <fields>}`. */
  function Encode(p: TrackHandlerPayload): (j: Json)
    ensures j.JObject? && j.fields.Keys == {"type", "payload"}
    ensures j.fields["type"] == JString(Tag(p)) && Tag(p) in KnownTags
  {
    var inner := match p
      case Track(t) => EncodeTrack(t)
      case Increment(t) => EncodeCounter(t.profileId, t.property, t.value)
      case Decrement(t) => EncodeCounter(t.profileId, t.property, t.value)
      case Alias(t) => EncodeAlias(t)
      case Identify(t) => EncodeIdentify(t);
    JObject(map["type" := JString(Tag(p)), "payload" := inner])
  }

  // ---------------------------------------------------------------------------
  // Field decoders: a required field must be present and non-null; an optional one may be
  // absent or null (decoded as nil); a present value of the wrong JSON type is a mismatch.

  function ReqString(fields: map<string, Json>, key: string): Result<string, DecodeError> {
    if key !in fields then Failure(KeyNotFound(key))
    else match fields[key]
      case JString(s) => Success(s)
      case JNull => Failure(ValueNotFound(key))
      case _ => Failure(TypeMismatch(key))
  }

  function ReqObject(fields: map<string, Json>, key: string): Result<map<string, Json>, DecodeError> {
    if key !in fields then Failure(KeyNotFound(key))
    else match fields[key]
      case JObject(m) => Success(m)
      case JNull => Failure(ValueNotFound(key))
      case _ => Failure(TypeMismatch(key))
  }

  function OptStringField(fields: map<string, Json>, key: string): Result<Option<string>, DecodeError> {
    if key !in fields then Success(None)
    else match fields[key]
      case JString(s) => Success(Some(s))
      case JNull => Success(None)
      case _ => Failure(TypeMismatch(key))
  }

  function OptIntField(fields: map<string, Json>, key: string): Result<Option<Int64>, DecodeError> {
    if key !in fields then Success(None)
    else match fields[key]
      case JNumber(n) => if FitsInt64(n) then Success(Some(n as Int64)) else Failure(DataCorrupted(key))
      case JNull => Success(None)
      case _ => Failure(TypeMismatch(key))
  }

  predicate AllStrings(m: map<string, Json>) {
    forall k :: k in m ==> m[k].JString?
  }

  function OptStringMapField(fields: map<string, Json>, key: string): Result<Option<StringMap>, DecodeError> {
    if key !in fields then Success(None)
    else match fields[key]
      case JObject(m) =>
        if AllStrings(m) then Success(Some(map k | k in m :: m[k].s)) else Failure(TypeMismatch(key))
      case JNull => Success(None)
      case _ => Failure(TypeMismatch(key))
  }

  function DecodeTrack(f: map<string, Json>): (r: Result<TrackPayload, DecodeError>)
    ensures "name" !in f ==> r == Failure(KeyNotFound("name"))
    ensures r.Success? ==> f["name"] == JString(r.value.name)
    ensures r.Success? && r.value.profileId.Some? ==> "profileId" in f && f["profileId"] == JString(r.value.profileId.value)
    ensures r.Success? && r.value.properties.Some? ==> "properties" in f && f["properties"].JObject?
  {
    var name :- ReqString(f, "name");
    var properties :- OptStringMapField(f, "properties");
    var profileId :- OptStringField(f, "profileId");
    Success(TrackPayload(name, properties, profileId))
  }

  function DecodeIdentify(f: map<string, Json>): (r: Result<IdentifyPayload, DecodeError>)
    ensures "profileId" !in f ==> r == Failure(KeyNotFound("profileId"))
    ensures r.Success? ==> f["profileId"] == JString(r.value.profileId)
    ensures r.Success? && r.value.firstName.Some? ==> "firstName" in f && f["firstName"] == JString(r.value.firstName.value)
    ensures r.Success? && r.value.lastName.Some? ==> "lastName" in f && f["lastName"] == JString(r.value.lastName.value)
    ensures r.Success? && r.value.email.Some? ==> "email" in f && f["email"] == JString(r.value.email.value)
    ensures r.Success? && r.value.avatar.Some? ==> "avatar" in f && f["avatar"] == JString(r.value.avatar.value)
  {
    var profileId :- ReqString(f, "profileId");
    var firstName :- OptStringField(f, "firstName");
    var lastName :- OptStringField(f, "lastName");
    var email :- OptStringField(f, "email");
    var avatar :- OptStringField(f, "avatar");
    var properties :- OptStringMapField(f, "properties");
    Success(IdentifyPayload(profileId, firstName, lastName, email, avatar, properties))
  }

  function DecodeAlias(f: map<string, Json>): (r: Result<AliasPayload, DecodeError>)
    ensures "profileId" !in f ==> r == Failure(KeyNotFound("profileId"))
    ensures "profileId" in f && f["profileId"].JString? && "alias" !in f ==> r == Failure(KeyNotFound("alias"))
    ensures r.Success? <==> "profileId" in f && f["profileId"].JString? && "alias" in f && f["alias"].JString?
    ensures r.Success? ==> r.value == AliasPayload(f["profileId"].s, f["alias"].s)
  {
    var profileId :- ReqString(f, "profileId");
    var alias :- ReqString(f, "alias");
    Success(AliasPayload(profileId, alias))
  }

  function DecodeIncrement(f: map<string, Json>): (r: Result<IncrementPayload, DecodeError>)
    ensures "profileId" !in f ==> r == Failure(KeyNotFound("profileId"))
    ensures r.Success? ==> "profileId" in f && f["profileId"] == JString(r.value.profileId)
    ensures r.Success? ==> "property" in f && f["property"] == JString(r.value.property)
    ensures r.Success? && r.value.value.Some? ==> "value" in f && f["value"] == JNumber(r.value.value.value as int)
  {
    var profileId :- ReqString(f, "profileId");
    var property :- ReqString(f, "property");
    var value :- OptIntField(f, "value");
    Success(IncrementPayload(profileId, property, value))
  }

  function DecodeDecrement(f: map<string, Json>): (r: Result<DecrementPayload, DecodeError>)
    ensures "profileId" !in f ==> r == Failure(KeyNotFound("profileId"))
    ensures r.Success? ==> "profileId" in f && f["profileId"] == JString(r.value.profileId)
    ensures r.Success? ==> "property" in f && f["property"] == JString(r.value.property)
    ensures r.Success? && r.value.value.Some? ==> "value" in f && f["value"] == JNumber(r.value.value.value as int)
  {
    var profileId :- ReqString(f, "profileId");
    var property :- ReqString(f, "property");
    var value :- OptIntField(f, "value");
    Success(DecrementPayload(profileId, property, value))
  }

  /** `TrackHandlerPayload.init(from:)`: read "type", then decode "payload" as the struct the
      tag names; any other tag is corrupted data, never a default variant. */
  function Decode(j: Json): (r: Result<TrackHandlerPayload, DecodeError>)
    ensures !j.JObject? ==> r == Failure(TypeMismatch(""))
    ensures j.JObject? && "type" !in j.fields ==> r == Failure(KeyNotFound("type"))
    ensures j.JObject? && "type" in j.fields && j.fields["type"].JString? && j.fields["type"].s !in KnownTags
      ==> r == Failure(DataCorrupted("type"))
    ensures (j.JObject? && "type" in j.fields && j.fields["type"].JString? && j.fields["type"].s in KnownTags
             && "payload" !in j.fields) ==> r == Failure(KeyNotFound("payload"))
    ensures r.Success? ==> (j.JObject? && "type" in j.fields && "payload" in j.fields
                            && j.fields["type"] == JString(Tag(r.value)))
  {
    if !j.JObject? then Failure(TypeMismatch(""))
    else
      var tag :- ReqString(j.fields, "type");
      if tag == "track" then
        var f :- ReqObject(j.fields, "payload");
        var t :- DecodeTrack(f);
        Success(Track(t))
      else if tag == "increment" then
        var f :- ReqObject(j.fields, "payload");
        var t :- DecodeIncrement(f);
        Success(Increment(t))
      else if tag == "decrement" then
        var f :- ReqObject(j.fields, "payload");
        var t :- DecodeDecrement(f);
        Success(Decrement(t))
      else if tag == "alias" then
        var f :- ReqObject(j.fields, "payload");
        var t :- DecodeAlias(f);
        Success(Alias(t))
      else if tag == "identify" then
        var f :- ReqObject(j.fields, "payload");
        var t :- DecodeIdentify(f);
        Success(Identify(t))
      else
        Failure(DataCorrupted("type"))
  }

  /** With a known tag, the envelope decodes only if its payload is an object that decodes
      as the struct the tag names. */
  lemma DecodeNeedsTaggedPayload(j: Json)
    requires j.JObject? && "type" in j.fields && j.fields["type"].JString?
    requires j.fields["type"].s in KnownTags
    ensures Decode(j).Success? ==> "payload" in j.fields && j.fields["payload"].JObject?
    ensures Decode(j).Success? ==> var f := j.fields["payload"].fields; var tag := j.fields["type"].s;
      && (tag == "track" ==> DecodeTrack(f).Success? && Decode(j).value == Track(DecodeTrack(f).value))
      && (tag == "increment" ==> DecodeIncrement(f).Success? && Decode(j).value == Increment(DecodeIncrement(f).value))
      && (tag == "decrement" ==> DecodeDecrement(f).Success? && Decode(j).value == Decrement(DecodeDecrement(f).value))
      && (tag == "alias" ==> DecodeAlias(f).Success? && Decode(j).value == Alias(DecodeAlias(f).value))
      && (tag == "identify" ==> DecodeIdentify(f).Success? && Decode(j).value == Identify(DecodeIdentify(f).value))
  {
  }

  // ---------------------------------------------------------------------------
  // Round trips

  lemma StringMapRoundTrip(m: StringMap)
    ensures AllStrings(EncodeStringMap(m).fields)
    ensures (map k | k in EncodeStringMap(m).fields :: EncodeStringMap(m).fields[k].s) == m
  {
    var f := EncodeStringMap(m).fields;
    var back := map k | k in f :: f[k].s;
    assert back.Keys == m.Keys;
  }

  lemma TrackRoundTrip(t: TrackPayload)
    ensures DecodeTrack(EncodeTrack(t).fields) == Success(t)
  {
    if t.properties.Some? {
      StringMapRoundTrip(t.properties.value);
    }
  }

  /** Each field of an encoded identify payload reads back as the value it was written from. */
  lemma IdentifyFieldsRoundTrip(t: IdentifyPayload)
    ensures var f := EncodeIdentify(t).fields;
      && ReqString(f, "profileId") == Success(t.profileId)
      && OptStringField(f, "firstName") == Success(t.firstName)
      && OptStringField(f, "lastName") == Success(t.lastName)
      && OptStringField(f, "email") == Success(t.email)
      && OptStringField(f, "avatar") == Success(t.avatar)
      && OptStringMapField(f, "properties") == Success(t.properties)
  {
    var f := EncodeIdentify(t).fields;
    assert "profileId" in f && f["profileId"] == JString(t.profileId);
    if t.properties.Some? {
      StringMapRoundTrip(t.properties.value);
      assert f["properties"] == EncodeStringMap(t.properties.value);
    }
  }

  lemma IdentifyRoundTrip(t: IdentifyPayload)
    ensures DecodeIdentify(EncodeIdentify(t).fields) == Success(t)
  {
    IdentifyFieldsRoundTrip(t);
  }

  /** Decoding an envelope whose payload object decodes under its tag. */
  lemma EnvelopeDecodes(p: TrackHandlerPayload)
    ensures var f := Encode(p).fields;
      && ReqString(f, "type") == Success(Tag(p))
      && f["payload"].JObject?
      && ReqObject(f, "payload") == Success(f["payload"].fields)
  {
  }

  lemma TrackEnvelopeRoundTrip(t: TrackPayload)
    ensures Decode(Encode(Track(t))) == Success(Track(t))
  {
    EnvelopeDecodes(Track(t));
    TrackRoundTrip(t);
  }

  lemma IdentifyEnvelopeRoundTrip(t: IdentifyPayload)
    ensures Decode(Encode(Identify(t))) == Success(Identify(t))
  {
    EnvelopeDecodes(Identify(t));
    IdentifyRoundTrip(t);
  }

  lemma CounterEnvelopeRoundTrip(p: TrackHandlerPayload)
    requires p.Increment? || p.Decrement? || p.Alias?
    ensures Decode(Encode(p)) == Success(p)
  {
    EnvelopeDecodes(p);
  }

  /** decode(encode(p)) == p for every variant and every combination of absent optional fields. */
  lemma RoundTrip(p: TrackHandlerPayload)
    ensures Decode(Encode(p)) == Success(p)
  {
    match p
    case Track(t) => TrackEnvelopeRoundTrip(t);
    case Identify(t) => IdentifyEnvelopeRoundTrip(t);
    case _ => CounterEnvelopeRoundTrip(p);
  }

  /** The tag alone determines the variant: two payloads share a tag exactly when they are
      the same variant, so encode's tag mapping is injective and decode inverts it. */
  lemma TagInjective(p: TrackHandlerPayload, q: TrackHandlerPayload)
    ensures Tag(p) == Tag(q) <==>
      (p.Track? && q.Track?) || (p.Increment? && q.Increment?) || (p.Decrement? && q.Decrement?)
      || (p.Alias? && q.Alias?) || (p.Identify? && q.Identify?)
  {
  }

  /** Decoding dispatches on the tag: whatever payload decodes, it is of the variant the tag
      names, and an envelope carrying the tag of `p` can only decode to `p`'s variant. */
  lemma DecodeFollowsTag(j: Json, p: TrackHandlerPayload)
    requires j.JObject? && "type" in j.fields && j.fields["type"] == JString(Tag(p))
    ensures Decode(j).Success? ==> Tag(Decode(j).value) == Tag(p)
  {
  }
}
