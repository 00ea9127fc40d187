/** Re-attaching the parts of a client message that a lossy typed codec dropped.
    The codec itself is arbitrary: what it decoded a message to and what it would
    encode that back to are unconstrained fields of `Message`. */
module MessageExtras {
  import opened Json

  type Fields = map<string, Json>

  const TOOL_CALLS := "tool_calls"
  const INDEX := "index"

  /** Call-level keys the typed call models, plus the streaming-only index. */
  const MODELED_CALL_KEYS: set<string> := {"id", "type", "function", "index"}

  /** One decoded tool call: what the codec encodes it to, and its extra fields. */
  datatype Call = Call(isFunction: bool, own: Fields, extra: Fields)

  function EncodeCall(c: Call): Json { Obj(c.own + c.extra) }

  function EncodeCalls(cs: seq<Call>): Json { Arr(seq(|cs|, i requires 0 <= i < |cs| => EncodeCall(cs[i]))) }

  datatype Variant = NoVariant | Assistant | OtherRole

  /** What marshalling the message (without calls and extras) gives back. */
  datatype Encoding = Unmarshalable | NotAnObject | Encodes(own: Fields)

  datatype RestoreError = DecodeToolCalls(i: nat) | Reencode(i: nat) | DecodeMessage(i: nat) | DecodeReencoded(i: nat)

  datatype Outcome = Done | Failed(e: RestoreError)

  class Message {
    const variant: Variant
    const encoding: Encoding
    var calls: seq<Call>
    var extra: Fields

    constructor (variant: Variant, encoding: Encoding, calls: seq<Call>)
      ensures this.variant == variant && this.encoding == encoding && this.calls == calls && this.extra == map[]
    {
      this.variant, this.encoding, this.calls, this.extra := variant, encoding, calls, map[];
    }

    function View(): (v: MessageView) reads this { MessageView(variant, encoding, calls, extra) }

    /** Replaces the extras wholesale, as the codec's setter does. */
    method SetExtraFields(e: Fields)
      modifies this`extra
      ensures extra == e
    { extra := e; }
  }

  /** The value a message has at one moment. */
  datatype MessageView = MessageView(variant: Variant, encoding: Encoding, calls: seq<Call>, extra: Fields) {

    /** `restorerOwnsToolCalls`. */
    predicate OwnsCalls() { variant.Assistant? && calls != [] && forall c :: c in calls ==> c.isFunction }

    predicate HasCalls() { variant.Assistant? && calls != [] }

    function CallField(): (f: Fields) { if HasCalls() then map[TOOL_CALLS := EncodeCalls(calls)] else map[] }

    /** The object the codec marshals, extras overriding same-named fields. */
    function Wire(): (f: Fields) requires encoding.Encodes? { encoding.own + CallField() + extra }

    /** As decoding leaves it: no extra field set anywhere. */
    predicate Fresh() { extra == map[] && forall c :: c in calls ==> c.extra == map[] }
  }

  /** `json.Unmarshal` into a map: null decodes to the empty map. */
  function AsObject(j: Json): (o: (bool, Fields)) {
    match j
    case Obj(f) => (true, f)
    case Null => (true, map[])
    case _ => (false, map[])
  }

  predicate IsCallArray(j: Json) { j.Arr? && forall e :: e in j.elems ==> e.Obj? || e.Null? }

  // ---------------------------------------------------------------------
  // Pass 1: call-level extras.

  function CallExtras(raw: Fields): (e: Fields) {
    map k | k in raw && k !in MODELED_CALL_KEYS :: raw[k]
  }

  function RestoreCall(c: Call, raw: Fields): (r: Call) {
    if CallExtras(raw) == map[] || !c.isFunction then c else c.(extra := CallExtras(raw))
  }

  /** The `tool_calls` of a raw message as decoded into a slice of maps; `None` on a type error. */
  datatype RawCalls = BadCalls | RawCalls(calls: seq<Fields>)

  function DecodeRawCalls(raw: Json): (r: RawCalls) {
    if raw.Null? || (raw.Obj? && TOOL_CALLS !in raw.fields) then RawCalls([])
    else if !raw.Obj? then BadCalls
    else
      var tc := raw.fields[TOOL_CALLS];
      if tc.Null? then RawCalls([])
      else if IsCallArray(tc) then RawCalls(seq(|tc.elems|, i requires 0 <= i < |tc.elems| => AsObject(tc.elems[i]).1))
      else BadCalls
  }

  function RestoreCalls(cs: seq<Call>, raws: seq<Fields>): (r: seq<Call>)
    requires |cs| == |raws|
  {
    seq(|cs|, j requires 0 <= j < |cs| => RestoreCall(cs[j], raws[j]))
  }

  /** Effect of `restoreToolCallExtras` on one message. */
  function AfterCallPass(v: MessageView, raw: Json): (r: MessageView) {
    match DecodeRawCalls(raw)
    case BadCalls => v
    case RawCalls(rs) =>
      if v.HasCalls() && |rs| == |v.calls| then v.(calls := RestoreCalls(v.calls, rs)) else v
  }

  predicate CallPassFails(v: MessageView, raw: Json) { v.HasCalls() && DecodeRawCalls(raw).BadCalls? }

  /** Building the extras of one call by looping over its raw keys, in any order. */
  method CollectCallExtras(rawCall: Fields) returns (extra: Fields)
    ensures extra == CallExtras(rawCall)
  {
    extra := map[];
    var todo := rawCall.Keys;
    while todo != {}
      invariant todo <= rawCall.Keys
      invariant extra == map k | k in rawCall && k !in todo && k !in MODELED_CALL_KEYS :: rawCall[k]
      decreases todo
    {
      var key :| key in todo;
      todo := todo - {key};
      if key !in MODELED_CALL_KEYS { extra := extra[key := rawCall[key]]; }
    }
  }

  ghost predicate Distinct(messages: seq<Message>) {
    forall i, j :: 0 <= i < j < |messages| ==> messages[i] != messages[j]
  }

  method RestoreToolCallExtras(messages: seq<Message>, raw: seq<Json>) returns (r: Outcome)
    requires Distinct(messages)
    modifies (set m | m in messages)`calls
    ensures |raw| != |messages| ==> r == Done && forall i :: 0 <= i < |messages| ==>
              messages[i].View() == old(messages[i].View())
    ensures |raw| == |messages| && r == Done ==> forall i :: 0 <= i < |messages| ==>
              messages[i].View() == AfterCallPass(old(messages[i].View()), raw[i])
    ensures r == Done <==> |raw| != |messages| || forall i :: 0 <= i < |messages| ==>
              !CallPassFails(old(messages[i].View()), raw[i])
    ensures r.Failed? ==> r.e.DecodeToolCalls? && r.e.i < |raw|
                          && CallPassFails(old(messages[r.e.i].View()), raw[r.e.i])
    ensures r.Failed? ==> forall k :: 0 <= k < |messages| ==>
              && (k < r.e.i ==> !CallPassFails(old(messages[k].View()), raw[k]))
              && messages[k].View()
                 == if k < r.e.i then AfterCallPass(old(messages[k].View()), raw[k]) else old(messages[k].View())
  {
    if |raw| != |messages| { return Done; }
    var i := 0;
    while i < |raw|
      invariant 0 <= i <= |raw|
      invariant forall k :: 0 <= k < i ==> messages[k].View() == AfterCallPass(old(messages[k].View()), raw[k])
      invariant forall k :: 0 <= k < i ==> !CallPassFails(old(messages[k].View()), raw[k])
      invariant forall k :: i <= k < |messages| ==> messages[k].View() == old(messages[k].View())
    {
      var m := messages[i];
      if m.variant.Assistant? && m.calls != [] {
        match DecodeRawCalls(raw[i])
        case BadCalls =>
          return Failed(DecodeToolCalls(i));
        case RawCalls(rawCalls) =>
          if |rawCalls| == |m.calls| {
            RestoreOneMessage(m, rawCalls);
          }
      }
      i := i + 1;
    }
    return Done;
  }

  /** The inner loop over one message's calls. */
  method RestoreOneMessage(m: Message, rawCalls: seq<Fields>)
    requires |rawCalls| == |m.calls|
    modifies m`calls
    ensures m.calls == RestoreCalls(old(m.calls), rawCalls)
  {
    var j := 0;
    while j < |rawCalls|
      invariant 0 <= j <= |rawCalls| == |m.calls| == |old(m.calls)|
      invariant forall k :: 0 <= k < j ==> m.calls[k] == RestoreCall(old(m.calls)[k], rawCalls[k])
      invariant forall k :: j <= k < |m.calls| ==> m.calls[k] == old(m.calls)[k]
    {
      var extra := CollectCallExtras(rawCalls[j]);
      if extra != map[] && m.calls[j].isFunction {
        m.calls := m.calls[j := m.calls[j].(extra := extra)];
      }
      j := j + 1;
    }
  }

  // ---------------------------------------------------------------------
  // Pass 2: message-level extras.

  function DropIndex(call: Json): (r: Json) { if call.Obj? then Obj(call.fields - {INDEX}) else call }

  /** `stripToolCallIndexes`, read as one equation: a call array loses every "index". */
  function Strip(raw: Json): (r: Json) {
    if IsCallArray(raw)
    then Arr(seq(|raw.elems|, i requires 0 <= i < |raw.elems| => DropIndex(raw.elems[i])))
    else raw
  }

  /** The code's form: decode, delete in place, and re-encode only if something changed. */
  method StripToolCallIndexes(raw: Json) returns (out: Json)
    ensures out == Strip(raw)
  {
    if !IsCallArray(raw) { return raw; }
    var calls := raw.elems;
    var changed := false;
    var i := 0;
    while i < |calls|
      invariant 0 <= i <= |calls| == |raw.elems|
      invariant forall k :: 0 <= k < i ==> calls[k] == DropIndex(raw.elems[k])
      invariant forall k :: i <= k < |calls| ==> calls[k] == raw.elems[k]
      invariant !changed ==> calls == raw.elems
    {
      if calls[i].Obj? && INDEX in calls[i].fields {
        calls := calls[i := Obj(calls[i].fields - {INDEX})];
        changed := true;
      } else if calls[i].Obj? {
        assert calls[i].fields - {INDEX} == calls[i].fields;
      }
      i := i + 1;
    }
    return if changed then Arr(calls) else raw;
  }

  /** Whether the generic pass re-attaches `key` of the raw message. */
  predicate Reattached(key: string, raw: Fields, encoded: Fields, owned: bool)
    requires key in raw
  {
    if key == TOOL_CALLS then !owned else key !in encoded || !ValueSubset(raw[key], encoded[key])
  }

  function ExtrasOf(raw: Fields, encoded: Fields, owned: bool): (e: Fields) {
    map k | k in raw && Reattached(k, raw, encoded, owned) :: if k == TOOL_CALLS then Strip(raw[k]) else raw[k]
  }

  method CollectMessageExtras(raw: Fields, encoded: Fields, owned: bool) returns (extra: Fields)
    ensures extra == ExtrasOf(raw, encoded, owned)
  {
    extra := map[];
    var todo := raw.Keys;
    while todo != {}
      invariant todo <= raw.Keys
      invariant extra == map k | k in raw && k !in todo && Reattached(k, raw, encoded, owned) ::
                           if k == TOOL_CALLS then Strip(raw[k]) else raw[k]
      decreases todo
    {
      var key :| key in todo;
      todo := todo - {key};
      if key == TOOL_CALLS {
        if !owned {
          var stripped := StripToolCallIndexes(raw[key]);
          extra := extra[key := stripped];
        }
      } else if key !in encoded || !ValueSubset(raw[key], encoded[key]) {
        extra := extra[key := raw[key]];
      }
    }
  }

  predicate MessagePassFails(v: MessageView, raw: Json) {
    !v.variant.NoVariant? && (!v.encoding.Encodes? || !AsObject(raw).0)
  }

  /** Which of the three steps of a message failed first. */
  predicate ErrorSays(e: RestoreError, v: MessageView, raw: Json) {
    match e
    case DecodeToolCalls(_) => false
    case Reencode(_) => v.encoding.Unmarshalable?
    case DecodeMessage(_) => !v.encoding.Unmarshalable? && !raw.Obj? && !raw.Null?
    case DecodeReencoded(_) => v.encoding.NotAnObject? && (raw.Obj? || raw.Null?)
  }

  /** Effect of `restoreMessageExtras` on one message. */
  function AfterMessagePass(v: MessageView, raw: Json): (r: MessageView) {
    if v.variant.NoVariant? || MessagePassFails(v, raw) then v
    else
      var e := ExtrasOf(AsObject(raw).1, v.Wire(), v.OwnsCalls());
      if e == map[] then v else v.(extra := e)
  }

  method RestoreMessageExtras(messages: seq<Message>, raw: seq<Json>) returns (r: Outcome)
    requires Distinct(messages)
    modifies (set m | m in messages)`extra
    ensures |raw| != |messages| ==> r == Done && forall i :: 0 <= i < |messages| ==>
              messages[i].View() == old(messages[i].View())
    ensures |raw| == |messages| && r == Done ==> forall i :: 0 <= i < |messages| ==>
              messages[i].View() == AfterMessagePass(old(messages[i].View()), raw[i])
    ensures r == Done <==> |raw| != |messages| || forall i :: 0 <= i < |messages| ==>
              !MessagePassFails(old(messages[i].View()), raw[i])
    ensures r.Failed? ==> r.e.i < |raw| && MessagePassFails(old(messages[r.e.i].View()), raw[r.e.i])
                          && ErrorSays(r.e, old(messages[r.e.i].View()), raw[r.e.i])
    ensures r.Failed? ==> forall k :: 0 <= k < |messages| ==>
              && (k < r.e.i ==> !MessagePassFails(old(messages[k].View()), raw[k]))
              && messages[k].View()
                 == if k < r.e.i then AfterMessagePass(old(messages[k].View()), raw[k]) else old(messages[k].View())
  {
    if |raw| != |messages| { return Done; }
    var i := 0;
    while i < |messages|
      invariant 0 <= i <= |messages|
      invariant forall k :: 0 <= k < i ==> messages[k].View() == AfterMessagePass(old(messages[k].View()), raw[k])
      invariant forall k :: 0 <= k < i ==> !MessagePassFails(old(messages[k].View()), raw[k])
      invariant forall k :: i <= k < |messages| ==> messages[k].View() == old(messages[k].View())
    {
      var one := RestoreExtrasOfOne(messages[i], raw[i], i);
      if one != Done { return one; }
      i := i + 1;
    }
    return Done;
  }

  /** One turn of the loop. */
  method RestoreExtrasOfOne(m: Message, raw: Json, i: nat) returns (r: Outcome)
    modifies m`extra
    ensures r == Done <==> !MessagePassFails(old(m.View()), raw)
    ensures r.Failed? ==> r.e.i == i && ErrorSays(r.e, old(m.View()), raw)
    ensures m.View() == if r == Done then AfterMessagePass(old(m.View()), raw) else old(m.View())
  {
    if m.variant.NoVariant? { return Done; }
    if m.encoding.Unmarshalable? { return Failed(Reencode(i)); }
    if !AsObject(raw).0 { return Failed(DecodeMessage(i)); }
    if m.encoding.NotAnObject? { return Failed(DecodeReencoded(i)); }
    var extra := CollectMessageExtras(AsObject(raw).1, m.View().Wire(), m.View().OwnsCalls());
    if extra != map[] { m.SetExtraFields(extra); }
    return Done;
  }

  // ---------------------------------------------------------------------
  // Both passes, in the order the request builder runs them.

  function Restored(v: MessageView, raw: Json): (r: MessageView) { AfterMessagePass(AfterCallPass(v, raw), raw) }

  predicate RestoreFails(v: MessageView, raw: Json) {
    CallPassFails(v, raw) || MessagePassFails(v, raw)
  }

  method RestoreExtras(messages: seq<Message>, raw: seq<Json>) returns (r: Outcome)
    requires Distinct(messages)
    modifies (set m | m in messages)`extra, (set m | m in messages)`calls
    ensures |raw| == |messages| && r == Done ==> forall i :: 0 <= i < |messages| ==>
              messages[i].View() == Restored(old(messages[i].View()), raw[i])
    ensures |raw| != |messages| ==> r == Done && forall i :: 0 <= i < |messages| ==>
              messages[i].View() == old(messages[i].View())
    ensures r == Done <==> |raw| != |messages| || forall i :: 0 <= i < |messages| ==>
              !RestoreFails(old(messages[i].View()), raw[i])
  {
    r := RestoreToolCallExtras(messages, raw);
    if r != Done { return; }
    ghost var mid := seq(|messages|, i requires 0 <= i < |messages| => old(messages[i].View()));
    label second:
    assert |raw| == |messages| ==> forall i :: 0 <= i < |messages| ==>
      messages[i].View() == AfterCallPass(mid[i], raw[i]);
    r := RestoreMessageExtras(messages, raw);
  }

  // ---------------------------------------------------------------------
  // What the client can rely on.

  /** For every codec: each client key other than `tool_calls` is on the wire with
      everything it said, calls the first pass does not own go out as sent minus
      "index", and keys the client did not send are the codec's own. */
  lemma ClientContentSurvives(v: MessageView, raw: Json)
    requires v.Fresh() && !v.variant.NoVariant? && raw.Obj? && !RestoreFails(v, raw)
    ensures var w := Restored(v, raw).Wire();
            && (forall k :: k in raw.fields && k != TOOL_CALLS ==> k in w && Survives(raw.fields[k], w[k]))
            && (TOOL_CALLS in raw.fields && !v.OwnsCalls() ==>
                TOOL_CALLS in w && w[TOOL_CALLS] == Strip(raw.fields[TOOL_CALLS]))
            && (v.OwnsCalls() ==> TOOL_CALLS in w && w[TOOL_CALLS] == EncodeCalls(AfterCallPass(v, raw).calls))
            && (forall k :: k !in raw.fields && k != TOOL_CALLS ==>
                  (k in w <==> k in v.Wire()) && (k in w ==> w[k] == v.Wire()[k]))
  {
    var mid := AfterCallPass(v, raw);
    var w := Restored(v, raw).Wire();
    assert mid.OwnsCalls() <==> v.OwnsCalls() by { CallPassKeepsOwnership(v, raw); }
    forall k | k in raw.fields && k != TOOL_CALLS ensures k in w && Survives(raw.fields[k], w[k]) {
      assert k in w && ValueSubset(raw.fields[k], w[k]) by { SubsetReflexive(raw.fields[k]); }
      SubsetIffNothingLost(raw.fields[k], w[k]);
    }
  }

  lemma CallPassKeepsOwnership(v: MessageView, raw: Json)
    ensures AfterCallPass(v, raw).OwnsCalls() <==> v.OwnsCalls()
    ensures |AfterCallPass(v, raw).calls| == |v.calls|
  {
    var mid := AfterCallPass(v, raw);
    assert forall i :: 0 <= i < |v.calls| ==> mid.calls[i].isFunction == v.calls[i].isFunction;
    if v.OwnsCalls() {
      forall c | c in mid.calls ensures c.isFunction {
        var i :| 0 <= i < |mid.calls| && mid.calls[i] == c;
        assert v.calls[i] in v.calls;
      }
    }
    if mid.OwnsCalls() {
      forall c | c in v.calls ensures c.isFunction {
        var i :| 0 <= i < |v.calls| && v.calls[i] == c;
        assert mid.calls[i] in mid.calls;
      }
    }
  }

  /** A message gets no extras exactly when the codec lost nothing and no unowned
      `tool_calls` was sent; the wire form is then the codec's own. */
  lemma LosslessMeansUntouched(v: MessageView, raw: Json)
    requires v.Fresh() && !v.variant.NoVariant? && raw.Obj? && !RestoreFails(v, raw)
    ensures var mid := AfterCallPass(v, raw);
            && (Restored(v, raw) == mid <==>
                && (TOOL_CALLS in raw.fields ==> v.OwnsCalls())
                && forall k :: k in raw.fields && k != TOOL_CALLS ==>
                   k in mid.Wire() && Survives(raw.fields[k], mid.Wire()[k]))
  {
    var mid := AfterCallPass(v, raw);
    CallPassKeepsOwnership(v, raw);
    var e := ExtrasOf(raw.fields, mid.Wire(), mid.OwnsCalls());
    assert mid.extra == map[];
    assert Restored(v, raw) == mid <==> e == map[];
    forall k | k in raw.fields && k in mid.Wire()
      ensures ValueSubset(raw.fields[k], mid.Wire()[k]) <==> Survives(raw.fields[k], mid.Wire()[k])
    {
      SubsetIffNothingLost(raw.fields[k], mid.Wire()[k]);
    }
    if e == map[] {
      forall k | k in raw.fields ensures !Reattached(k, raw.fields, mid.Wire(), mid.OwnsCalls()) {
        assert k !in e;
      }
    }
  }

  // ---------------------------------------------------------------------
  // Replayed tool calls.

  /** Every call-level key the codec does not model is on the matching outgoing call, verbatim. */
  ghost predicate CallsReplayed(raws: seq<Fields>, out: seq<Json>) {
    forall j, k :: 0 <= j < |raws| && k in CallExtras(raws[j]) ==>
      j < |out| && out[j].Obj? && k in out[j].fields && out[j].fields[k] == raws[j][k]
  }

  ghost predicate SomethingToReplay(raws: seq<Fields>) {
    exists j :: 0 <= j < |raws| && CallExtras(raws[j]) != map[]
  }

  /** An owned message whose codec kept the number of calls: extras arrive and override,
      modelled keys and "index" stay exactly as the codec encodes them. */
  lemma OwnedCallsReplayed(v: MessageView, raw: Json)
    requires v.Fresh() && v.OwnsCalls() && DecodeRawCalls(raw).RawCalls?
    requires |DecodeRawCalls(raw).calls| == |v.calls|
    ensures var raws, out := DecodeRawCalls(raw).calls, EncodeCalls(AfterCallPass(v, raw).calls).elems;
            && CallsReplayed(raws, out)
            && |out| == |v.calls|
            && forall j, k :: 0 <= j < |out| && k !in CallExtras(raws[j]) ==>
                 && (k in out[j].fields <==> k in v.calls[j].own)
                 && (k in out[j].fields ==> out[j].fields[k] == v.calls[j].own[k])
  {
    var raws, cs := DecodeRawCalls(raw).calls, AfterCallPass(v, raw).calls;
    forall j | 0 <= j < |cs| ensures EncodeCalls(cs).elems[j] == Obj(v.calls[j].own + CallExtras(raws[j])) {
      assert v.calls[j] in v.calls;
    }
  }

  /** One owned call on the wire, key by key: what the typed call models, and the streaming-only
      "index", are the codec's or absent; everything else the client sent arrives verbatim. */
  ghost predicate SentAs(raw: Fields, own: Fields, out: Json) {
    && out.Obj?
    && (forall k :: k in {"id", "type", "function", "index"} ==>
          (k in out.fields <==> k in own) && (k in out.fields ==> out.fields[k] == own[k]))
    && (forall k :: k !in {"id", "type", "function", "index"} ==>
          if k in raw then k in out.fields && out.fields[k] == raw[k]
          else (k in out.fields <==> k in own) && (k in out.fields ==> out.fields[k] == own[k]))
  }

  /** The wire form of an owned message's calls, from what the client sent: call by call if the
      numbers agree, and the codec's own otherwise. */
  lemma OwnedCallsOnTheWire(v: MessageView, raw: Json)
    requires v.Fresh() && v.variant.Assistant? && v.calls != [] && forall c :: c in v.calls ==> c.isFunction
    requires raw.Obj? && "tool_calls" in raw.fields && IsCallArray(raw.fields["tool_calls"]) && v.encoding.Encodes?
    ensures var w, sent := Restored(v, raw).Wire(), raw.fields["tool_calls"].elems;
            && "tool_calls" in w && w["tool_calls"].Arr? && |w["tool_calls"].elems| == |v.calls|
            && (|sent| == |v.calls| ==> forall j :: 0 <= j < |v.calls| ==>
                  SentAs(if sent[j].Obj? then sent[j].fields else map[], v.calls[j].own, w["tool_calls"].elems[j]))
            && (|sent| != |v.calls| ==> forall j :: 0 <= j < |v.calls| ==>
                  w["tool_calls"].elems[j] == Obj(v.calls[j].own))
  {
    var sent := raw.fields["tool_calls"].elems;
    ClientContentSurvives(v, raw);
    forall j | 0 <= j < |v.calls|
      ensures |sent| == |v.calls| ==>
                SentAs(if sent[j].Obj? then sent[j].fields else map[], v.calls[j].own,
                       EncodeCalls(AfterCallPass(v, raw).calls).elems[j])
      ensures |sent| != |v.calls| ==> EncodeCalls(AfterCallPass(v, raw).calls).elems[j] == Obj(v.calls[j].own)
    {
      OwnedCallOnTheWire(v, raw, j);
    }
  }

  lemma OwnedCallOnTheWire(v: MessageView, raw: Json, j: nat)
    requires v.Fresh() && v.OwnsCalls() && j < |v.calls|
    requires raw.Obj? && "tool_calls" in raw.fields && IsCallArray(raw.fields["tool_calls"])
    ensures var sent, out := raw.fields["tool_calls"].elems, EncodeCalls(AfterCallPass(v, raw).calls).elems;
            && |out| == |v.calls|
            && (|sent| == |v.calls| ==>
                  SentAs(if sent[j].Obj? then sent[j].fields else map[], v.calls[j].own, out[j]))
            && (|sent| != |v.calls| ==> out[j] == Obj(v.calls[j].own))
  {
    var sent := raw.fields["tool_calls"].elems;
    assert v.calls[j] in v.calls;
    if |sent| == |v.calls| {
      assert sent[j] in sent;
      ExtrasAreSent(v.calls[j], if sent[j].Obj? then sent[j].fields else map[]);
    } else {
      assert v.calls[j].own + map[] == v.calls[j].own;
    }
  }

  lemma ExtrasAreSent(c: Call, raw: Fields)
    requires c.isFunction && c.extra == map[]
    ensures SentAs(raw, c.own, EncodeCall(RestoreCall(c, raw)))
  {
    assert RestoreCall(c, raw).extra == CallExtras(raw);
  }

  /** A client's "index" on a call never reaches the provider, whoever owns the calls: one goes out
      only where the codec itself writes it. */
  lemma NoClientIndexGoesOut(v: MessageView, raw: Json, j: nat)
    requires v.Fresh() && !v.variant.NoVariant? && raw.Obj? && !RestoreFails(v, raw)
    requires "tool_calls" in raw.fields && IsCallArray(raw.fields["tool_calls"])
    ensures var w := Restored(v, raw).Wire();
            && "tool_calls" in w && w["tool_calls"].Arr?
            && (j < |w["tool_calls"].elems| && w["tool_calls"].elems[j].Obj?
                && "index" in w["tool_calls"].elems[j].fields ==>
                  j < |v.calls| && "index" in v.calls[j].own)
  {
    ClientContentSurvives(v, raw);
    if v.OwnsCalls() {
      OwnedCallsOnTheWire(v, raw);
    } else {
      StripRemovesExactlyIndex(raw.fields["tool_calls"]);
    }
  }

  /** The whole outgoing message, key by key, for every codec: a client key keeps the codec's form
      if nothing of it was lost and goes out as sent otherwise; other keys are the codec's. */
  lemma WireIsDetermined(v: MessageView, raw: Json, k: string)
    requires v.Fresh() && !v.variant.NoVariant? && raw.Obj? && !RestoreFails(v, raw)
    ensures var w, codec := Restored(v, raw).Wire(), v.Wire();
            var owned := v.variant.Assistant? && v.calls != [] && forall c :: c in v.calls ==> c.isFunction;
            && (k != "tool_calls" && k in raw.fields ==>
                  && k in w
                  && w[k] == if k in codec && Survives(raw.fields[k], codec[k]) then codec[k] else raw.fields[k])
            && (k == "tool_calls" && k in raw.fields && !owned ==> k in w && w[k] == Strip(raw.fields[k]))
            && (k !in raw.fields && !(k == "tool_calls" && owned) ==>
                  (k in w <==> k in codec) && (k in w ==> w[k] == codec[k]))
  {
    CallPassKeepsOwnership(v, raw);
    var mid := AfterCallPass(v, raw);
    if k != "tool_calls" {
      assert (k in mid.Wire() <==> k in v.Wire()) && (k in v.Wire() ==> mid.Wire()[k] == v.Wire()[k]);
      if k in raw.fields && k in v.Wire() { SubsetIffNothingLost(raw.fields[k], v.Wire()[k]); }
    }
  }

  /** A message the codec found no variant for, and a raw message that is null, are left alone. */
  lemma NothingToRestore(v: MessageView, raw: Json)
    requires v.variant.NoVariant? || (v.Fresh() && raw == Null)
    ensures Restored(v, raw) == v
  {
    if v.HasCalls() { assert DecodeRawCalls(raw) == RawCalls([]); }
    assert AfterCallPass(v, raw) == v;
    if !v.variant.NoVariant? && v.encoding.Encodes? { assert ExtrasOf(map[], v.Wire(), v.OwnsCalls()) == map[]; }
  }

  /** When a request is refused for a message: a type error in its calls, or no object to compare. */
  lemma RestoreFailsIff(v: MessageView, raw: Json)
    ensures RestoreFails(v, raw) <==>
            || (v.variant.Assistant? && v.calls != [] && !raw.Null?
                && (raw.Obj? && "tool_calls" in raw.fields ==>
                      !raw.fields["tool_calls"].Null?
                      && (raw.fields["tool_calls"].Arr? ==>
                            exists e :: e in raw.fields["tool_calls"].elems && !e.Obj? && !e.Null?))
                && (raw.Obj? ==> "tool_calls" in raw.fields))
            || (!v.variant.NoVariant? && (!v.encoding.Encodes? || (!raw.Obj? && !raw.Null?)))
  {}

  function CodecCalls(owns: seq<Fields>): (cs: seq<Call>) {
    seq(|owns|, i requires 0 <= i < |owns| => Call(true, owns[i], map[]))
  }

  /** The calls an owned message goes out with when the codec encodes each as `owns` says. */
  function SentCalls(raw: Json, owns: seq<Fields>, encoding: Encoding): seq<Json> {
    EncodeCalls(AfterCallPass(MessageView(Assistant, encoding, CodecCalls(owns), map[]), raw).calls).elems
  }

  /** A codec that encodes nothing beyond what it models. */
  function Bare(n: nat): (owns: seq<Fields>)
    ensures |owns| == n && forall i :: 0 <= i < n ==> owns[i] == map[]
  {
    seq(n, _ => map[])
  }

  lemma EqualCountsReplay(raw: Json, owns: seq<Fields>, encoding: Encoding)
    requires owns != [] && DecodeRawCalls(raw).RawCalls? && |owns| == |DecodeRawCalls(raw).calls|
    ensures CallsReplayed(DecodeRawCalls(raw).calls, SentCalls(raw, owns, encoding))
  {
    var v := MessageView(Assistant, encoding, CodecCalls(owns), map[]);
    assert v.OwnsCalls() && v.Fresh();
    OwnedCallsReplayed(v, raw);
  }

  lemma OtherCountsLose(raw: Json, n: nat, encoding: Encoding)
    requires n > 0 && DecodeRawCalls(raw).RawCalls? && n != |DecodeRawCalls(raw).calls|
    requires SomethingToReplay(DecodeRawCalls(raw).calls)
    ensures !CallsReplayed(DecodeRawCalls(raw).calls, SentCalls(raw, Bare(n), encoding))
  {
    var raws, out := DecodeRawCalls(raw).calls, SentCalls(raw, Bare(n), encoding);
    var j :| 0 <= j < |raws| && CallExtras(raws[j]) != map[];
    var k :| k in CallExtras(raws[j]);
    assert j < |out| ==> out[j] == Obj(map[]);
  }

  ghost predicate AlwaysReplayed(raw: Json, n: nat, encoding: Encoding)
    requires DecodeRawCalls(raw).RawCalls?
  {
    forall owns: seq<Fields> :: |owns| == n ==> CallsReplayed(DecodeRawCalls(raw).calls, SentCalls(raw, owns, encoding))
  }

  /** The guard on the number of calls is exactly what replay depends on: an owned
      message is replayed whatever the codec encodes, if and only if the codec decoded
      as many calls as the client sent or the client sent nothing to replay. */
  lemma ReplayNeedsEqualCounts(raw: Json, n: nat, encoding: Encoding)
    requires n > 0 && DecodeRawCalls(raw).RawCalls?
    ensures AlwaysReplayed(raw, n, encoding)
            <==> n == |DecodeRawCalls(raw).calls| || !SomethingToReplay(DecodeRawCalls(raw).calls)
  {
    if n == |DecodeRawCalls(raw).calls| {
      forall owns: seq<Fields> | |owns| == n
        ensures CallsReplayed(DecodeRawCalls(raw).calls, SentCalls(raw, owns, encoding))
      {
        EqualCountsReplay(raw, owns, encoding);
      }
    } else if SomethingToReplay(DecodeRawCalls(raw).calls) {
      OtherCountsLose(raw, n, encoding);
    }
  }

  // ---------------------------------------------------------------------
  // Stripping, and the index that streamed deltas add.

  ghost predicate SameButIndex(before: Fields, after: Fields) {
    && (forall k :: k in after <==> k in before && k != INDEX)
    && (forall k :: k in after ==> after[k] == before[k])
  }

  /** Stripping keeps the calls and all their other keys, leaves no "index", and does nothing twice. */
  lemma StripRemovesExactlyIndex(raw: Json)
    ensures Strip(Strip(raw)) == Strip(raw)
    ensures IsCallArray(raw) ==>
              && Strip(raw).Arr? && |Strip(raw).elems| == |raw.elems|
              && forall i :: 0 <= i < |raw.elems| ==>
                   && (raw.elems[i].Null? <==> Strip(raw).elems[i].Null?)
                   && (raw.elems[i].Obj? <==> Strip(raw).elems[i].Obj?)
                   && (raw.elems[i].Obj? ==> SameButIndex(raw.elems[i].fields, Strip(raw).elems[i].fields))
    ensures !IsCallArray(raw) ==> Strip(raw) == raw
  {
    if IsCallArray(raw) {
      var s := Strip(raw);
      forall e | e in s.elems ensures e.Obj? || e.Null? {
        var i :| 0 <= i < |s.elems| && s.elems[i] == e;
        assert raw.elems[i] in raw.elems;
      }
      forall i | 0 <= i < |raw.elems| ensures DropIndex(DropIndex(raw.elems[i])) == DropIndex(raw.elems[i]) {
        if raw.elems[i].Obj? {
          assert raw.elems[i].fields - {INDEX} - {INDEX} == raw.elems[i].fields - {INDEX};
        }
      }
      assert Strip(s).elems == s.elems;
      forall i | 0 <= i < |raw.elems| ensures raw.elems[i].Null? <==> s.elems[i].Null? {
        assert raw.elems[i] in raw.elems;
      }
    }
  }

  /** `DeltaToolCall.MarshalJSON`: the call's own fields with its position alongside. */
  function WithIndex(call: Fields, i: nat): (f: Fields) { call[INDEX := Num(i as real)] }

  function DeltaFields(calls: seq<Fields>): (ds: seq<Fields>)
    ensures |ds| == |calls| && forall i :: 0 <= i < |calls| ==> ds[i] == WithIndex(calls[i], i)
  {
    seq(|calls|, i requires 0 <= i < |calls| => WithIndex(calls[i], i))
  }

  function PlainCalls(calls: seq<Fields>): (j: Json) {
    Arr(seq(|calls|, i requires 0 <= i < |calls| => Obj(calls[i])))
  }

  /** Stripping undoes the streamed index exactly for calls that had no "index" of their own. */
  lemma StripUndoesDeltaIndex(calls: seq<Fields>)
    ensures Strip(PlainCalls(DeltaFields(calls))) == PlainCalls(calls) <==> forall c :: c in calls ==> INDEX !in c
  {
    var d := PlainCalls(DeltaFields(calls));
    assert IsCallArray(d) by {
      forall e | e in d.elems ensures e.Obj? { var i :| 0 <= i < |d.elems| && d.elems[i] == e; }
    }
    forall i | 0 <= i < |calls| ensures Strip(d).elems[i] == Obj(calls[i] - {INDEX}) {
      assert WithIndex(calls[i], i) - {INDEX} == calls[i] - {INDEX};
    }
    if forall c :: c in calls ==> INDEX !in c {
      forall i | 0 <= i < |calls| ensures Strip(d).elems[i] == Obj(calls[i]) {
        assert calls[i] in calls;
        assert calls[i] - {INDEX} == calls[i];
      }
      assert Strip(d).elems == PlainCalls(calls).elems;
    } else {
      var c :| c in calls && INDEX in c;
      var i :| 0 <= i < |calls| && calls[i] == c;
      assert INDEX !in Strip(d).elems[i].fields;
      assert PlainCalls(calls).elems[i] == Obj(c);
    }
  }
}
