/** What the gateway sends upstream in place of the client's request. */
module GatewayRequest {
  import opened JsonObjects
  import opened JsonParser
  import opened JsonRoundTrip
  import opened JsonText
  import opened JsonTheorems
  import opened Options
  import opened Ordering

  datatype Profile = Profile(
    maximumBody: nat, model: string, defaultOutput: int,
    provider: seq<Field<Value>>, inference: seq<Field<Value>>)

  // --- The request ----------------------------------------------------------------------------------------

  datatype Effective = Sent(text: string, output: int) | Refused

  /** The one output limit that the client names, or the profile's own. */
  function OutputLimit(p: Profile, fields: seq<Field<Value>>): Value {
    var (a, b) := (Get(fields, "max_tokens"), Get(fields, "max_completion_tokens"));
    if a != Null && b != Null then Foreign
    else if a != Null then a
    else if b != Null then b
    else Int(p.defaultOutput)
  }

  function Payload(p: Profile, fields: seq<Field<Value>>): seq<Field<Value>> {
    Update(Put(Put(fields, "model", Str(p.model)), "provider", Obj(p.provider)), p.inference)
  }

  /** `_effective_request`, on a body of `length` bytes whose decoded text is `body`. */
  function EffectiveRequest(p: Profile, length: nat, body: string): Effective {
    if !(1 <= length <= p.maximumBody) then Refused
    else match Parse(body)
    case Loaded(Obj(fields)) =>
      var limit := OutputLimit(p, fields);
      if Get(fields, "model") != Str(p.model) || Get(fields, "stream") != Bool(true) then Refused
      else if !limit.Int? || limit.n < 1 || limit.n > p.defaultOutput then Refused
      else
        (match RequestJson(Obj(Payload(p, fields)))
         case Ok(text) => Sent(text, limit.n)
         case ValueError => Refused)
    case _ => Refused
  }

  // --- What arrives upstream ----------------------------------------------------------------------------------

  /** What the upstream must find under a key: the profile's inference settings first, then its provider
      routing and its model, and otherwise what the client wrote. */
  function Wanted(p: Profile, client: seq<Field<Value>>, key: string): Option<Value> {
    if Find(p.inference, key).Some? then Find(p.inference, key)
    else if key == "provider" then Some(Obj(p.provider))
    else if key == "model" then Some(Str(p.model))
    else Find(client, key)
  }

  lemma PayloadFinds(p: Profile, fields: seq<Field<Value>>)
    requires UniqueKeys(fields) && UniqueKeys(p.inference)
    ensures UniqueKeys(Payload(p, fields))
    ensures forall key :: Find(Payload(p, fields), key) == Wanted(p, fields, key)
  {
    PutKeys(fields, "model", Str(p.model));
    PutKeys(Put(fields, "model", Str(p.model)), "provider", Obj(p.provider));
    UpdateKeys(Put(Put(fields, "model", Str(p.model)), "provider", Obj(p.provider)), p.inference);
  }

  ghost predicate KeyedFields(fields: seq<Field<Value>>) {
    UniqueKeys(fields) && forall f :: f in fields ==> Keyed(f.value)
  }

  lemma {:induction false} PutKeyed(fields: seq<Field<Value>>, key: string, v: Value)
    requires KeyedFields(fields) && Keyed(v)
    ensures forall f :: f in Put(fields, key, v) ==> Keyed(f.value)
  {
    if fields != [] && fields[0].key != key { PutKeyed(fields[1..], key, v); }
  }

  lemma {:induction false} UpdateKeyed(fields: seq<Field<Value>>, updates: seq<Field<Value>>)
    requires KeyedFields(fields) && KeyedFields(updates)
    ensures KeyedFields(Update(fields, updates))
  {
    if updates != [] {
      var init, last := updates[..|updates| - 1], updates[|updates| - 1];
      UpdateKeyed(fields, init);
      PutKeys(Update(fields, init), last.key, last.value);
      PutKeyed(Update(fields, init), last.key, last.value);
    }
  }

  lemma PayloadKeyed(p: Profile, fields: seq<Field<Value>>)
    requires KeyedFields(fields) && KeyedFields(p.inference) && KeyedFields(p.provider)
    ensures Keyed(Obj(Payload(p, fields)))
  {
    var a := Put(fields, "model", Str(p.model));
    PutKeys(fields, "model", Str(p.model));
    PutKeyed(fields, "model", Str(p.model));
    PutKeys(a, "provider", Obj(p.provider));
    PutKeyed(a, "provider", Obj(p.provider));
    UpdateKeyed(Put(a, "provider", Obj(p.provider)), p.inference);
  }

  /** What the upstream must find under a key, by its three sources in turn. */
  lemma {:induction false} WantedExactly(p: Profile, client: seq<Field<Value>>, key: string)
    ensures
      var wanted := Wanted(p, client, key);
      && (Find(p.inference, key).Some? ==> wanted == Find(p.inference, key))
      && (Find(p.inference, key).None? && key == "provider" ==> wanted == Some(Obj(p.provider)))
      && (Find(p.inference, key).None? && key == "model" ==> wanted == Some(Str(p.model)))
      && (Find(p.inference, key).None? && key != "provider" && key != "model" ==> wanted == Find(client, key))
  {}

  /** The client gives a limit under the key, other than null. */
  predicate Gives(fields: seq<Field<Value>>, key: string, v: Value) { v != Null && Find(fields, key) == Some(v) }

  predicate GivesSome(fields: seq<Field<Value>>, key: string) {
    Find(fields, key).Some? && Find(fields, key).value != Null
  }

  /** The limit that a request is metered under is the very integer that the client gave under the one key, else
      the one under the other, and the profile's default if it gave neither. */
  lemma {:induction false} MeteredAsGiven(p: Profile, length: nat, body: string)
    requires EffectiveRequest(p, length, body).Sent?
    ensures Parse(body).Loaded? && Parse(body).value.Obj?
    ensures
      var (fields, output) := (Parse(body).value.fields, EffectiveRequest(p, length, body).output);
      && (GivesSome(fields, "max_tokens") ==> Gives(fields, "max_tokens", Int(output)))
      && (!GivesSome(fields, "max_tokens") && GivesSome(fields, "max_completion_tokens") ==>
            Gives(fields, "max_completion_tokens", Int(output)))
      && (!GivesSome(fields, "max_tokens") && !GivesSome(fields, "max_completion_tokens") ==> output == p.defaultOutput)
  {
    hide Parse, RequestJson, Payload;
  }

  predicate LimitHolds(p: Profile, fields: seq<Field<Value>>, key: string) {
    GivesSome(fields, key) ==> Find(fields, key).value.Int? && 1 <= Find(fields, key).value.n <= p.defaultOutput
  }

  /** The request as it stands may be sent, whatever its payload: the profile's model, streaming, and at most one
      output limit, an integer from one to the default. */
  predicate Acceptable(p: Profile, fields: seq<Field<Value>>) {
    && Find(fields, "model") == Some(Str(p.model)) && Find(fields, "stream") == Some(Bool(true))
    && !(GivesSome(fields, "max_tokens") && GivesSome(fields, "max_completion_tokens"))
    && LimitHolds(p, fields, "max_tokens") && LimitHolds(p, fields, "max_completion_tokens")
    && p.defaultOutput >= 1
  }

  ghost predicate AllPrintable(p: Profile, fields: seq<Field<Value>>) {
    forall key :: Wanted(p, fields, key).Some? ==> Printable(Wanted(p, fields, key).value)
  }

  /** A request is sent if and only if its length is in bounds, it is one object that is acceptable, and everything
      that the upstream would find in it can be printed. */
  lemma {:induction false} SentExactly(p: Profile, length: nat, body: string)
    requires UniqueKeys(p.inference)
    ensures EffectiveRequest(p, length, body).Sent? <==>
      && 1 <= length <= p.maximumBody
      && Parse(body).Loaded? && Parse(body).value.Obj?
      && Acceptable(p, Parse(body).value.fields) && AllPrintable(p, Parse(body).value.fields)
  {
    AcceptedIsKeyed(body);
    if Parse(body).Loaded? && Parse(body).value.Obj? {
      var fields := Parse(body).value.fields;
      LimitsExactly(p, fields);
      PayloadPrints(p, fields);
    }
    hide Parse, Payload, OutputLimit, AllPrintable, Acceptable, Text;
  }

  lemma {:induction false} LimitsExactly(p: Profile, fields: seq<Field<Value>>)
    ensures Acceptable(p, fields) <==>
      && Get(fields, "model") == Str(p.model) && Get(fields, "stream") == Bool(true)
      && OutputLimit(p, fields).Int? && 1 <= OutputLimit(p, fields).n <= p.defaultOutput
  {}

  lemma {:induction false} PayloadPrints(p: Profile, fields: seq<Field<Value>>)
    requires UniqueKeys(fields) && UniqueKeys(p.inference)
    ensures Printable(Obj(Payload(p, fields))) <==> AllPrintable(p, fields)
  {
    PayloadFinds(p, fields);
    var payload := Payload(p, fields);
    hide Payload, Wanted;
    if Printable(Obj(payload)) {
      forall key | Wanted(p, fields, key).Some? ensures Printable(Wanted(p, fields, key).value) {
        FindIffMember(payload, key, Wanted(p, fields, key).value);
        assert Find(payload, key) == Wanted(p, fields, key);
        var i :| 0 <= i < |payload| && payload[i] == Field(key, Wanted(p, fields, key).value);
        assert Leaves(PrintableLeaf, payload[i].value);
      }
    }
    if AllPrintable(p, fields) {
      forall i | 0 <= i < |payload| ensures Leaves(PrintableLeaf, payload[i].value) {
        FindIffMember(payload, payload[i].key, payload[i].value);
        assert payload[i] in payload && payload[i] == Field(payload[i].key, payload[i].value);
        assert Find(payload, payload[i].key) == Wanted(p, fields, payload[i].key);
      }
    }
  }

  /** A request that is sent reads back upstream as one object in which every key has exactly the wanted
      value, and the output limit under which it was metered lies within the profile's. */
  lemma SentRequestIsPinned(p: Profile, length: nat, body: string, key: string)
    requires KeyedFields(p.inference) && KeyedFields(p.provider)
    requires EffectiveRequest(p, length, body).Sent?
    ensures Parse(body).Loaded? && Parse(body).value.Obj?
    ensures
      var sent := EffectiveRequest(p, length, body);
      && 1 <= sent.output <= p.defaultOutput
      && Parse(sent.text).Loaded? && Parse(sent.text).value.Obj?
      && Find(Parse(sent.text).value.fields, key) == NormOption(Wanted(p, Parse(body).value.fields, key))
  {
    AcceptedIsKeyed(body);
    var fields := Parse(body).value.fields;
    PayloadFinds(p, fields);
    PayloadKeyed(p, fields);
    RoundTrip(Obj(Payload(p, fields)));
    NormFind(Payload(p, fields), key);
  }

  /** The upstream gets the profile's model exactly when its inference settings do not name another. */
  lemma ModelIsPinned(p: Profile, length: nat, body: string)
    requires KeyedFields(p.inference) && KeyedFields(p.provider)
    requires EffectiveRequest(p, length, body).Sent?
    ensures
      var found := Find(p.inference, "model");
      var text := EffectiveRequest(p, length, body).text;
      Parse(text).Loaded? && Parse(text).value.Obj?
      && (Get(Parse(text).value.fields, "model") == Str(p.model)
          <==> found.None? || Norm(found.value) == Str(p.model))
  {
    SentRequestIsPinned(p, length, body, "model");
  }
}
