/** Top-level request fields: what is modelled, what is dropped, and what reaches
    the provider verbatim. */
module RequestFields {
  import opened Json

  type Fields = map<string, Json>

  /** Keys `ChatRequest` decodes itself. */
  const MODELED: set<string> := {
    "model", "messages", "stream", "temperature", "top_p", "reasoning_effort", "max_tokens", "stop",
    "seed", "n", "timeout", "tools", "tool_choice", "parallel_tool_calls", "response_format", "functions"
  }

  /** Keys the client library sets itself and panics on when asked to carry. */
  const RESERVED: set<string> := {"stream", "stream_options", "messages", "model"}

  /** Modelled only to be forwarded as they came. */
  const PASS_THROUGH: set<string> := {"tools", "tool_choice", "parallel_tool_calls", "response_format"}

  /** `isJSONNullOrEmpty` on a decoded value; an absent field has no value at all. */
  predicate NullOrEmpty(j: Json) { j.Null? || j == Arr([]) || j == Obj(map[]) }

  predicate MessagesDecode(data: Fields) {
    "messages" in data ==> data["messages"].Arr? || data["messages"].Null?
  }

  class ChatRequest {
    var passThrough: Fields
    var extraFields: Fields
    var rawMessages: seq<Json>

    constructor ()
      ensures passThrough == map[] && extraFields == map[] && rawMessages == []
    {
      passThrough, extraFields, rawMessages := map[], map[], [];
    }

    /** `UnmarshalJSON`; whether the typed fields decode is up to the codec. */
    method Unmarshal(data: Fields, typed: bool) returns (ok: bool)
      modifies this
      ensures ok == (typed && MessagesDecode(data))
      ensures ok ==> passThrough == map k | k in data && k in PASS_THROUGH :: data[k]
      ensures ok ==> extraFields == map k | k in data && k !in MODELED && k !in RESERVED :: data[k]
      ensures ok ==> rawMessages == if "messages" in data && data["messages"].Arr? then data["messages"].elems else []
      ensures !ok ==> unchanged(this)
    {
      if !typed { return false; }
      if !MessagesDecode(data) { return false; }
      ok := true;
      passThrough := map k | k in data && k in PASS_THROUGH :: data[k];
      rawMessages := if "messages" in data && data["messages"].Arr? then data["messages"].elems else [];
      var all := data;
      var todo := data.Keys;
      while todo != {}
        invariant todo <= data.Keys
        invariant all == map k | k in data && (k in todo || (k !in MODELED && k !in RESERVED)) :: data[k]
        decreases todo
      {
        var key :| key in todo;
        todo := todo - {key};
        if key in MODELED || key in RESERVED { all := all - {key}; }
      }
      extraFields := all;
    }

    /** `passThroughFields`. */
    method PassThroughFields() returns (fields: Fields)
      ensures fields == Forwarded(passThrough, extraFields)
    {
      fields := map[];
      var todo := passThrough.Keys;
      while todo != {}
        invariant todo <= passThrough.Keys
        invariant fields == map k | k in passThrough && k !in todo && !NullOrEmpty(passThrough[k]) :: passThrough[k]
        decreases todo
      {
        var name :| name in todo;
        todo := todo - {name};
        if !NullOrEmpty(passThrough[name]) { fields := fields[name := passThrough[name]]; }
      }
      ghost var named := fields;
      todo := extraFields.Keys;
      while todo != {}
        invariant todo <= extraFields.Keys
        invariant fields == (map k | k in extraFields && k !in todo :: extraFields[k]) + named
        decreases todo
      {
        var name :| name in todo;
        todo := todo - {name};
        if name !in fields { fields := fields[name := extraFields[name]]; }
      }
      assert (map k | k in extraFields && k !in todo :: extraFields[k]) == extraFields;
    }
  }

  /** Named fields win over extra ones of the same name. */
  function Forwarded(named: Fields, extra: Fields): (f: Fields) {
    extra + map k | k in named && !NullOrEmpty(named[k]) :: named[k]
  }

  /** Field by field: a named field that was really sent wins, and an extra one goes out otherwise. */
  lemma ForwardedSays(named: Fields, extra: Fields, k: string)
    ensures var f := Forwarded(named, extra);
            var sent := k in named && named[k] != Null && named[k] != Arr([]) && named[k] != Obj(map[]);
            && (k in f <==> sent || k in extra)
            && (sent ==> f[k] == named[k])
            && (!sent && k in extra ==> f[k] == extra[k])
  {}

  /** What is refused outright: the legacy `functions`, and any `n` but one. */
  predicate Supported(data: Fields) {
    && ("functions" in data ==> NullOrEmpty(data["functions"]))
    && ("n" in data ==> data["n"].Null? || data["n"] == Num(1.0))
  }

  /** A field that was not really sent. */
  predicate Blank(j: Json) { j == Null || j == Arr([]) || j == Obj(map[]) }

  /** The keys the server interprets, the ones it forwards by name among them. */
  predicate Interpreted(k: string) {
    k in {"model", "messages", "stream", "stream_options", "temperature", "top_p", "reasoning_effort", "max_tokens",
          "stop", "seed", "n", "timeout", "functions", "tools", "tool_choice", "parallel_tool_calls", "response_format"}
  }

  predicate ForwardedByName(k: string) { k in {"tools", "tool_choice", "parallel_tool_calls", "response_format"} }

  /** Refused: the legacy `functions`, any `n` but one, and messages that are no array. */
  predicate Refused(data: Fields) {
    || ("functions" in data && !Blank(data["functions"]))
    || ("n" in data && data["n"] != Null && data["n"] != Num(1.0))
    || ("messages" in data && data["messages"] != Null && !data["messages"].Arr?)
  }

  lemma KeysAre(k: string)
    ensures ForwardedByName(k) <==> k in PASS_THROUGH
    ensures Interpreted(k) <==> k in MODELED || k in RESERVED
    ensures k in {"stream", "stream_options", "messages", "model"} <==> k in RESERVED
  {}

  /** Every client key the server does not interpret reaches the provider with its own
      value, and nothing else does. `typed` says whether the codec decodes the typed fields,
      and `passes` whether the remaining checks of single fields let the request through. */
  method ForwardRequest(data: Fields, typed: bool, passes: bool) returns (ok: bool, fields: Fields)
    ensures ok == (typed && passes && !Refused(data))
    ensures ok ==> forall k :: k in fields <==>
              k in data && ((ForwardedByName(k) && !Blank(data[k])) || !Interpreted(k))
    ensures forall k :: k in fields ==> k in data && fields[k] == data[k]
    ensures fields.Keys !! {"stream", "stream_options", "messages", "model"}
  {
    forall k ensures ForwardedByName(k) <==> k in PASS_THROUGH
      ensures Interpreted(k) <==> k in MODELED || k in RESERVED
      ensures k in {"stream", "stream_options", "messages", "model"} <==> k in RESERVED
    {
      KeysAre(k);
    }
    var r := new ChatRequest();
    ok := r.Unmarshal(data, typed);
    if !ok || !Supported(data) || !passes { return false, map[]; }
    fields := r.PassThroughFields();
  }
}
