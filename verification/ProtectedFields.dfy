/** What a connector's response adapter may not touch, and the check of the events it returns. */
module ProtectedFields {
  import opened Options

  /** A JSON value; the text of a number is kept as it is. */
  datatype Json =
    | Null
    | Bool(b: bool)
    | Number(text: string)
    | Str(s: string)
    | Array(items: seq<Json>)
    | Object(fields: map<string, Json>)

  predicate ProtectedKey(k: string) {
    k in {"usage", "id", "object", "model", "created", "created_at", "type", "status", "error", "incomplete_details",
          "finish_reason", "sequence_number", "index", "output_index", "content_index", "call_id", "item_id",
          "response_id", "name", "namespace", "role"}
  }

  /** Protected fields with their whole values, under the objects and arrays that lead to them; `Null` if none. */
  function Protected(v: Json): Json {
    match v
    case Object(fields) =>
      var kept := map k | k in fields && (ProtectedKey(k) || Protected(fields[k]) != Null)
                     :: if ProtectedKey(k) then fields[k] else Protected(fields[k]);
      if kept == map[] then Null else Object(kept)
    case Array(items) =>
      var children := seq(|items|, i requires 0 <= i < |items| => Protected(items[i]));
      if exists i :: 0 <= i < |items| && children[i] != Null then Array(children) else Null
    case _ => Null
  }

  /** Whether field `k` of an object is kept, and what is kept of it. */
  predicate Kept(fields: map<string, Json>, k: string) {
    k in fields && (ProtectedKey(k) || Protected(fields[k]) != Null)
  }

  lemma ProtectedObject(v: Json)
    requires v.Object?
    ensures var p := Protected(v);
            && (p == Null <==> forall k :: !Kept(v.fields, k))
            && (p != Null ==>
                  && p.Object?
                  && (forall k :: k in p.fields <==> Kept(v.fields, k))
                  && (forall k :: k in p.fields ==>
                        p.fields[k] == if ProtectedKey(k) then v.fields[k] else Protected(v.fields[k])))
  {
    hide ProtectedKey;
    var kept := map k | k in v.fields && (ProtectedKey(k) || Protected(v.fields[k]) != Null)
                   :: if ProtectedKey(k) then v.fields[k] else Protected(v.fields[k]);
    assert forall k :: k in kept <==> Kept(v.fields, k);
    if kept != map[] {
      var k :| k in kept;
    }
  }

  lemma ProtectedArray(v: Json)
    requires v.Array?
    ensures var p := Protected(v);
            && (p == Null <==> forall i :: 0 <= i < |v.items| ==> Protected(v.items[i]) == Null)
            && (p != Null ==>
                  && p.Array? && |p.items| == |v.items|
                  && forall i :: 0 <= i < |v.items| ==> p.items[i] == Protected(v.items[i]))
  {
    hide ProtectedKey;
    var items := v.items;
    var children := seq(|items|, i requires 0 <= i < |items| => Protected(items[i]));
    assert Protected(v) == if exists i :: 0 <= i < |items| && children[i] != Null then Array(children) else Null;
    hide Protected;
    assert forall i :: 0 <= i < |items| ==> children[i] == Protected(items[i]);
  }

  lemma {:induction false} ProtectedIdempotent(v: Json)
    ensures Protected(Protected(v)) == Protected(v)
  {
    hide Protected, ProtectedKey;
    var p := Protected(v);
    match v
    case Object(fields) =>
      ProtectedObject(v);
      if p != Null {
        forall k | k in fields
          ensures Protected(Protected(fields[k])) == Protected(fields[k])
        {
          ProtectedIdempotent(fields[k]);
        }
        ProtectedObject(p);
        assert forall k :: k in p.fields ==> Kept(p.fields, k);
        var k :| Kept(fields, k);
        assert Kept(p.fields, k);
        assert Protected(p).fields == p.fields;
      } else {
        NullProtected();
      }
    case Array(items) =>
      ProtectedArray(v);
      if p != Null {
        forall i | 0 <= i < |items|
          ensures Protected(Protected(items[i])) == Protected(items[i])
        {
          ProtectedIdempotent(items[i]);
        }
        ProtectedArray(p);
        assert Protected(p).items == p.items;
      } else {
        NullProtected();
      }
    case _ =>
      LeafProtected(v);
      NullProtected();
  }

  lemma NullProtected()
    ensures Protected(Null) == Null
  {
  }

  lemma LeafProtected(v: Json)
    requires !v.Object? && !v.Array?
    ensures Protected(v) == Null
  {
  }

  // ------------------------------------------------------------------------------------------------- Paths

  datatype Step = Key(name: string) | Index(i: nat)

  function Lookup(v: Json, path: seq<Step>): Option<Json> {
    if path == [] then Some(v)
    else
      match path[0]
      case Key(k) => if v.Object? && k in v.fields then Lookup(v.fields[k], path[1..]) else None
      case Index(i) => if v.Array? && i < |v.items| then Lookup(v.items[i], path[1..]) else None
  }

  predicate IsProtected(step: Step) {
    step.Key? && ProtectedKey(step.name)
  }

  /** The path ends at its first protected key. */
  predicate FirstProtected(path: seq<Step>) {
    && path != []
    && if |path| == 1 then IsProtected(path[0]) else !IsProtected(path[0]) && FirstProtected(path[1..])
  }

  /** The projection answers every such path as the value itself does. */
  lemma {:induction false} ProtectedLookup(v: Json, path: seq<Step>)
    requires FirstProtected(path)
    ensures Lookup(Protected(v), path) == Lookup(v, path)
    decreases v
  {
    hide Protected, ProtectedKey;
    match v
    case Object(fields) =>
      ProtectedObject(v);
      if path[0].Key? && path[0].name in fields {
        var k := path[0].name;
        assert Kept(fields, k) || Protected(fields[k]) == Null;
        if |path| == 1 {
          assert path[1..] == [] && Kept(fields, k);
        } else {
          ProtectedLookup(fields[k], path[1..]);
        }
      }
    case Array(items) =>
      ProtectedArray(v);
      if path[0].Index? && path[0].i < |items| {
        ProtectedLookup(items[path[0].i], path[1..]);
      }
    case _ =>
      LeafProtected(v);
  }

  /** Equal projections: the values agree wherever a path reaches its first protected key. */
  lemma EqualProjectionsAgree(a: Json, b: Json, path: seq<Step>)
    requires Protected(a) == Protected(b) && FirstProtected(path)
    ensures Lookup(a, path) == Lookup(b, path)
  {
    ProtectedLookup(a, path);
    ProtectedLookup(b, path);
  }

  // ------------------------------------------------------------------------------------- Validating events

  /** An event of the stream; its data is text that should be a JSON object. */
  datatype Event = Event(event: Option<string>, id: Option<string>, data: string)

  /** How text is parsed is left open: every result holds for every such function. */
  type Parser = string -> Option<Json>

  function ParseObject(parse: Parser, data: string): Option<Json> {
    var v := parse(data);
    if v.Some? && v.value.Object? then v else None
  }

  /** White_Space of the Unicode Character Database. */
  predicate Whitespace(c: char) {
    || '\U{9}' <= c <= '\U{D}' || c == ' ' || c == '\U{85}' || c == '\U{A0}' || c == '\U{1680}'
    || '\U{2000}' <= c <= '\U{200A}' || c == '\U{2028}' || c == '\U{2029}' || c == '\U{202F}'
    || c == '\U{205F}' || c == '\U{3000}'
  }

  function Trim(s: string): string {
    if s != [] && Whitespace(s[0]) then Trim(s[1..])
    else if s != [] && Whitespace(s[|s| - 1]) then Trim(s[..|s| - 1])
    else s
  }

  /** Some field, at any depth, satisfies `q`. */
  predicate SomeField(v: Json, q: (string, Json) -> bool) {
    match v
    case Object(fields) => exists k :: k in fields && (q(k, fields[k]) || SomeField(fields[k], q))
    case Array(items) => exists i :: 0 <= i < |items| && SomeField(items[i], q)
    case _ => false
  }

  predicate SingleKey(k: string) {
    k in {"usage", "sequence_number", "tool_calls", "function_call"}
  }

  predicate Single(k: string, value: Json) {
    SingleKey(k)
  }

  predicate Finishing(k: string, value: Json) {
    k == "finish_reason" && value != Null
  }

  predicate RequiresSingleEvent(v: Json) {
    SomeField(v, Single)
  }

  predicate ContainsFinishReason(v: Json) {
    SomeField(v, Finishing)
  }

  predicate TerminalName(name: Option<string>) {
    name.Some? &&
    name.value in {"response.completed", "response.failed", "response.incomplete", "response.cancelled", "error"}
  }

  predicate Terminal(input: Event, before: Json)
    requires before.Object?
  {
    || ("type" in before.fields && before.fields["type"].Str? && TerminalName(Some(before.fields["type"].s)))
    || TerminalName(input.event)
    || ("error" in before.fields && before.fields["error"] != Null)
    || ContainsFinishReason(before)
  }

  predicate ValidateEvents(parse: Parser, input: Event, output: seq<Event>) {
    if Trim(input.data) == "[DONE]" then |output| == 1 && output[0] == input
    else
      var before := ParseObject(parse, input.data);
      && before.Some?
      && output != []
      && (RequiresSingleEvent(before.value) || Terminal(input, before.value) ==> |output| == 1)
      && forall e :: e in output ==>
           && e.event == input.event && e.id == input.id
           && ParseObject(parse, e.data).Some?
           && Protected(ParseObject(parse, e.data).value) == Protected(before.value)
  }

  /** The path leads to a field that satisfies `q`. */
  predicate FieldAt(v: Json, path: seq<Step>, q: (string, Json) -> bool) {
    && path != [] && path[|path| - 1].Key?
    && Lookup(v, path).Some? && q(path[|path| - 1].name, Lookup(v, path).value)
  }

  lemma {:induction false} SomeFieldPath(v: Json, q: (string, Json) -> bool) returns (path: seq<Step>)
    requires SomeField(v, q)
    ensures FieldAt(v, path, q)
  {
    match v
    case Object(fields) =>
      var k :| k in fields && (q(k, fields[k]) || SomeField(fields[k], q));
      if q(k, fields[k]) {
        path := [Key(k)];
      } else {
        var rest := SomeFieldPath(fields[k], q);
        path := [Key(k)] + rest;
        assert path[1..] == rest;
      }
    case Array(items) =>
      var i :| 0 <= i < |items| && SomeField(items[i], q);
      var rest := SomeFieldPath(items[i], q);
      path := [Index(i)] + rest;
      assert path[1..] == rest;
  }

  lemma {:induction false} PathSomeField(v: Json, path: seq<Step>, q: (string, Json) -> bool)
    requires FieldAt(v, path, q)
    ensures SomeField(v, q)
    decreases |path|
  {
    if |path| == 1 {
      assert path[1..] == [];
      var k := path[0].name;
      assert Lookup(v.fields[k], path[1..]) == Some(v.fields[k]);
      assert Lookup(v, path) == Some(v.fields[k]) && q(k, v.fields[k]);
    } else {
      var inner := if path[0].Key? then v.fields[path[0].name] else v.items[path[0].i];
      PathSomeField(inner, path[1..], q);
    }
  }

  /** The recursive search finds exactly the fields that some path leads to. */
  lemma SomeFieldIff(v: Json, q: (string, Json) -> bool)
    ensures SomeField(v, q) <==> exists path :: FieldAt(v, path, q)
  {
    if SomeField(v, q) {
      var path := SomeFieldPath(v, q);
    } else if exists path :: FieldAt(v, path, q) {
      var path :| FieldAt(v, path, q);
      PathSomeField(v, path, q);
    }
  }

  /** Every event that passes keeps the name, the id and all protected values of the one it came from. */
  lemma EventsKeepProtected(parse: Parser, input: Event, output: seq<Event>, e: Event, path: seq<Step>)
    requires ValidateEvents(parse, input, output) && Trim(input.data) != "[DONE]" && e in output
    requires FirstProtected(path)
    ensures e.event == input.event && e.id == input.id
    ensures ParseObject(parse, e.data).Some? && ParseObject(parse, input.data).Some?
    ensures Lookup(ParseObject(parse, e.data).value, path) == Lookup(ParseObject(parse, input.data).value, path)
  {
    hide Protected, ProtectedKey, FirstProtected, Lookup, RequiresSingleEvent, Terminal;
    EqualProjectionsAgree(ParseObject(parse, e.data).value, ParseObject(parse, input.data).value, path);
  }

  /** An event is only ever multiplied if nothing in it ends, meters, numbers or calls anything. */
  lemma EventsFanOut(parse: Parser, input: Event, output: seq<Event>, path: seq<Step>)
    requires ValidateEvents(parse, input, output) && |output| != 1
    ensures |output| > 1
    ensures ParseObject(parse, input.data).Some?
    ensures var before := ParseObject(parse, input.data).value;
            && !Terminal(input, before)
            && !FieldAt(before, path, Single)
            && !FieldAt(before, path, Finishing)
  {
    var before := ParseObject(parse, input.data).value;
    SomeFieldIff(before, Single);
    SomeFieldIff(before, Finishing);
  }

  /** The end mark of a stream passes unchanged, and in no other way. */
  lemma DonePasses(parse: Parser, input: Event, output: seq<Event>)
    requires Trim(input.data) == "[DONE]"
    ensures ValidateEvents(parse, input, output) <==> output == [input]
  {
  }

  lemma {:induction false} Untrimmed(pre: string, s: string, post: string)
    requires (forall c :: c in pre ==> Whitespace(c)) && (forall c :: c in post ==> Whitespace(c))
    requires s != "" && !Whitespace(s[0]) && !Whitespace(s[|s| - 1])
    ensures Trim(pre + s + post) == s
    decreases |pre| + |post|
  {
    hide Whitespace;
    var t := pre + s + post;
    if pre != "" {
      assert t[0] == pre[0] && pre[0] in pre;
      assert t[1..] == pre[1..] + s + post;
      Untrimmed(pre[1..], s, post);
    } else if post != "" {
      assert t[0] == s[0] && t[|t| - 1] == post[|post| - 1] && post[|post| - 1] in post;
      assert t[..|t| - 1] == pre + s + post[..|post| - 1];
      Untrimmed(pre, s, post[..|post| - 1]);
    } else {
      assert t == s;
    }
  }

  /** White space around the end mark does not matter. */
  lemma DoneMark(pre: string, post: string)
    requires (forall c :: c in pre ==> Whitespace(c)) && (forall c :: c in post ==> Whitespace(c))
    ensures Trim(pre + "[DONE]" + post) == "[DONE]"
  {
    Untrimmed(pre, "[DONE]", post);
  }

  /** Nothing in the event ends, meters, numbers or calls anything, at any depth. */
  ghost predicate Ordinary(input: Event, before: Json) {
    && (forall name :: name in ["response.completed", "response.failed", "response.incomplete", "response.cancelled", "error"] ==>
          input.event != Some(name) && Lookup(before, [Key("type")]) != Some(Str(name)))
    && Lookup(before, [Key("error")]) in [None, Some(Null)]
    && (forall path, k :: k in ["usage", "sequence_number", "tool_calls", "function_call"] ==>
          Lookup(before, path + [Key(k)]) == None)
    && (forall path :: Lookup(before, path + [Key("finish_reason")]) in [None, Some(Null)])
  }

  lemma LookupKey(v: Json, k: string)
    requires v.Object?
    ensures Lookup(v, [Key(k)]) == if k in v.fields then Some(v.fields[k]) else None
  {
    assert [Key(k)][1..] == [];
  }

  lemma OrdinaryIff(input: Event, before: Json)
    requires before.Object?
    ensures Ordinary(input, before) <==> !RequiresSingleEvent(before) && !Terminal(input, before)
  {
    hide SomeField, Lookup;
    LookupKey(before, "type");
    LookupKey(before, "error");
    SomeFieldIff(before, Single);
    SomeFieldIff(before, Finishing);
    SingleFields(before);
    FinishingFields(before);
  }

  lemma SingleFields(v: Json)
    ensures (exists path :: FieldAt(v, path, Single)) <==>
            exists path, k :: k in ["usage", "sequence_number", "tool_calls", "function_call"]
                              && Lookup(v, path + [Key(k)]).Some?
  {
    hide Lookup;
    if path: seq<Step> :| FieldAt(v, path, Single) {
      var init := path[..|path| - 1];
      var k := path[|path| - 1].name;
      assert path == init + [Key(k)];
      assert k in ["usage", "sequence_number", "tool_calls", "function_call"] && Lookup(v, init + [Key(k)]).Some?;
    }
    if path: seq<Step>, k :| k in ["usage", "sequence_number", "tool_calls", "function_call"] && Lookup(v, path + [Key(k)]).Some? {
      assert FieldAt(v, path + [Key(k)], Single);
    }
  }

  lemma FinishingFields(v: Json)
    ensures (exists path :: FieldAt(v, path, Finishing)) <==>
            exists path :: Lookup(v, path + [Key("finish_reason")]) !in [None, Some(Null)]
  {
    hide Lookup;
    if path: seq<Step> :| FieldAt(v, path, Finishing) {
      var init := path[..|path| - 1];
      var k := path[|path| - 1].name;
      assert path == init + [Key(k)];
    }
    if path: seq<Step> :| Lookup(v, path + [Key("finish_reason")]) !in [None, Some(Null)] {
      var value := Lookup(v, path + [Key("finish_reason")]);
      assert value != None && value != Some(Null);
      assert Finishing("finish_reason", value.value);
      assert FieldAt(v, path + [Key("finish_reason")], Finishing);
    }
  }

  /** The event stands in for the other: same name and id, an object, and the same protected values. */
  ghost predicate StandsFor(parse: Parser, e: Event, input: Event) {
    && e.event == input.event && e.id == input.id
    && ParseObject(parse, e.data).Some? && ParseObject(parse, input.data).Some?
    && Protected(ParseObject(parse, e.data).value) == Protected(ParseObject(parse, input.data).value)
  }

  /** Any other event passes exactly as one or more events that stand for it, and as several only if it is ordinary. */
  lemma PassesIff(parse: Parser, input: Event, output: seq<Event>)
    requires Trim(input.data) != "[DONE]"
    ensures ValidateEvents(parse, input, output) <==>
            && ParseObject(parse, input.data).Some?
            && output != [] && (forall e :: e in output ==> StandsFor(parse, e, input))
            && (|output| > 1 ==> Ordinary(input, ParseObject(parse, input.data).value))
  {
    hide Trim, Protected, Ordinary, RequiresSingleEvent, Terminal;
    if ParseObject(parse, input.data).Some? {
      OrdinaryIff(input, ParseObject(parse, input.data).value);
    }
  }

  /** In particular every one of these fields of the event itself is what it was, or as absent as it was. */
  lemma TopLevelKept(parse: Parser, input: Event, output: seq<Event>, e: Event, k: string)
    requires ValidateEvents(parse, input, output) && Trim(input.data) != "[DONE]" && e in output
    requires k in {"usage", "id", "object", "model", "created", "created_at", "type", "status", "error",
                   "incomplete_details", "finish_reason", "sequence_number", "index", "output_index", "content_index",
                   "call_id", "item_id", "response_id", "name", "namespace", "role"}
    ensures var before, after := ParseObject(parse, input.data), ParseObject(parse, e.data);
            && before.Some? && after.Some?
            && (k in before.value.fields <==> k in after.value.fields)
            && (k in before.value.fields ==> before.value.fields[k] == after.value.fields[k])
  {
    hide Trim, Protected, RequiresSingleEvent, Terminal, Lookup;
    assert FirstProtected([Key(k)]);
    hide FirstProtected;
    EventsKeepProtected(parse, input, output, e, [Key(k)]);
    LookupKey(ParseObject(parse, input.data).value, k);
    LookupKey(ParseObject(parse, e.data).value, k);
  }

  predicate Leaf(v: Json) {
    !v.Object? && !v.Array?
  }

  /** Any other field that holds text, a number or the like is the adapter's to change. */
  lemma OthersMayChange(parse: Parser, input: Event, e: Event, k: string, v: Json)
    requires Trim(input.data) != "[DONE]" && ParseObject(parse, input.data).Some?
    requires k !in {"usage", "id", "object", "model", "created", "created_at", "type", "status", "error",
                    "incomplete_details", "finish_reason", "sequence_number", "index", "output_index", "content_index",
                    "call_id", "item_id", "response_id", "name", "namespace", "role"}
    requires var fields := ParseObject(parse, input.data).value.fields;
             && Leaf(v) && (k in fields ==> Leaf(fields[k]))
             && e.event == input.event && e.id == input.id && parse(e.data) == Some(Object(fields[k := v]))
    ensures ValidateEvents(parse, input, [e])
  {
    assert !ProtectedKey(k);
    hide Trim, RequiresSingleEvent, Terminal, Protected, ProtectedKey;
    LeafMayChange(ParseObject(parse, input.data).value.fields, k, v);
  }

  lemma LeafMayChange(fields: map<string, Json>, k: string, v: Json)
    requires !ProtectedKey(k) && Leaf(v) && (k in fields ==> Leaf(fields[k]))
    ensures Protected(Object(fields[k := v])) == Protected(Object(fields))
  {
    hide Protected, ProtectedKey;
    var before, after := Object(fields), Object(fields[k := v]);
    ProtectedObject(before);
    ProtectedObject(after);
    LeafProtected(v);
    if k in fields {
      LeafProtected(fields[k]);
    }
    assert forall x :: Kept(before.fields, x) <==> Kept(after.fields, x);
    if Protected(before) != Null {
      assert Protected(before).fields == Protected(after).fields;
    }
  }
}
