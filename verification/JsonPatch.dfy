/** JSON documents, JSON Pointers (RFC 6901) and the JSON Patch `add` operation (RFC 6902, section 4.1). */
module JsonPatch {
  import opened Options

  datatype Json =
    | Null | Bool(b: bool) | Num(n: int) | Str(s: string)
    | Arr(items: seq<Json>)
    | Obj(fields: map<string, Json>)

  /** An `add` operation, the only kind the injector emits, by the reference tokens of its path. */
  datatype Op = Op(path: seq<string>, value: Json)

  /** The same as it goes over the wire: the path is a JSON Pointer text. */
  datatype JSONPatchOp = JSONPatchOp(path: string, value: Json)

  // ---- Escaping (section 3 of RFC 6901) ----

  function EscapeChar(c: char): string {
    if c == '~' then "~0" else if c == '/' then "~1" else [c]
  }

  function Escape(s: string): string {
    if s == "" then "" else EscapeChar(s[0]) + Escape(s[1..])
  }

  function Unescape(s: string): Option<string> {
    if s == "" then Some("")
    else if s[0] != '~' then
      var rest := Unescape(s[1..]);
      if rest.Some? then Some([s[0]] + rest.value) else None
    else if |s| >= 2 && (s[1] == '0' || s[1] == '1') then
      var rest := Unescape(s[2..]);
      if rest.Some? then Some([if s[1] == '0' then '~' else '/'] + rest.value) else None
    else None
  }

  lemma {:induction false} EscapeRoundTrip(s: string)
    ensures Unescape(Escape(s)) == Some(s)
    ensures '/' !in Escape(s)
  {
    if s != "" {
      EscapeRoundTrip(s[1..]);
      var head, tail := EscapeChar(s[0]), Escape(s[1..]);
      assert (head + tail)[|head|..] == tail;
      assert [s[0]] + s[1..] == s;
    }
  }

  lemma {:induction false} EscapeAppend(s: string, c: char)
    ensures Escape(s + [c]) == Escape(s) + EscapeChar(c)
  {
    if s == "" {
      assert s + [c] == [c] && [c][1..] == "";
    } else {
      EscapeAppend(s[1..], c);
      assert (s + [c])[1..] == s[1..] + [c];
    }
  }

  /** The escaping loop of the injector. */
  method EscapeJSONPointer(s: string) returns (result: string)
    ensures result == Escape(s)
    ensures Unescape(result) == Some(s) && '/' !in result
  {
    result := "";
    for i := 0 to |s|
      invariant result == Escape(s[..i])
    {
      EscapeAppend(s[..i], s[i]);
      assert s[..i + 1] == s[..i] + [s[i]];
      if s[i] == '~' {
        result := result + "~0";
      } else if s[i] == '/' {
        result := result + "~1";
      } else {
        result := result + [s[i]];
      }
    }
    assert s[..|s|] == s;
    EscapeRoundTrip(s);
  }

  // ---- Pointers ----

  /** The text of a pointer to these reference tokens. */
  function Render(tokens: seq<string>): string {
    if tokens == [] then "" else "/" + Escape(tokens[0]) + Render(tokens[1..])
  }

  /** One token more: a slash and the escaped token. */
  lemma {:induction false} RenderMore(tokens: seq<string>, last: string)
    ensures Render(tokens + [last]) == Render(tokens) + "/" + Escape(last)
  {
    if tokens == [] {
      assert tokens + [last] == [last] && [last][1..] == [];
    } else {
      RenderMore(tokens[1..], last);
      assert (tokens + [last])[1..] == tokens[1..] + [last];
      var head, rest := "/" + Escape(tokens[0]), Render(tokens[1..]);
      assert head + (rest + "/" + Escape(last)) == (head + rest) + "/" + Escape(last);
    }
  }

  function UpToSlash(s: string): (t: string)
    ensures |t| <= |s|
  {
    if s == "" || s[0] == '/' then "" else [s[0]] + UpToSlash(s[1..])
  }

  function ParsePointer(p: string): Option<seq<string>>
    decreases |p|
  {
    if p == "" then Some([])
    else if p[0] != '/' then None
    else
      var raw := UpToSlash(p[1..]);
      var token, rest := Unescape(raw), ParsePointer(p[1 + |raw|..]);
      if token.Some? && rest.Some? then Some([token.value] + rest.value) else None
  }

  lemma {:induction false} UpToSlashStops(a: string, b: string)
    requires '/' !in a && (b == "" || b[0] == '/')
    ensures UpToSlash(a + b) == a
  {
    if a == "" {
      assert a + b == b;
    } else {
      UpToSlashStops(a[1..], b);
      assert (a + b)[1..] == a[1..] + b;
    }
  }

  lemma ParseFirst(token: string, tail: string)
    requires (tail == "" || tail[0] == '/') && ParsePointer(tail).Some?
    ensures ParsePointer("/" + Escape(token) + tail) == Some([token] + ParsePointer(tail).value)
  {
    var head := Escape(token);
    EscapeRoundTrip(token);
    UpToSlashStops(head, tail);
    ParseStep("/" + head + tail, head, tail);
  }

  /** One step of the parser, once the first raw token is known. */
  lemma ParseStep(p: string, raw: string, tail: string)
    requires p == "/" + raw + tail && UpToSlash(raw + tail) == raw
    requires Unescape(raw).Some? && ParsePointer(tail).Some?
    ensures ParsePointer(p) == Some([Unescape(raw).value] + ParsePointer(tail).value)
  {
    assert p[1..] == raw + tail;
    assert p[1 + |raw|..] == tail;
  }

  /** Rendering then parsing gives the tokens back, whatever characters they hold. */
  lemma {:induction false} PointerRoundTrip(tokens: seq<string>)
    ensures ParsePointer(Render(tokens)) == Some(tokens)
  {
    if tokens != [] {
      PointerRoundTrip(tokens[1..]);
      ParseFirst(tokens[0], Render(tokens[1..]));
      assert [tokens[0]] + tokens[1..] == tokens;
    }
  }

  // ---- Array indices ----

  function Digit(d: nat): char
    requires d < 10
  {
    ("0123456789")[d]
  }

  function Dec(n: nat): (s: string)
    ensures |s| >= 1
  {
    if n < 10 then [Digit(n)] else Dec(n / 10) + [Digit(n % 10)]
  }

  predicate IsDigit(c: char) {
    '0' <= c <= '9'
  }

  function DigitValue(c: char): nat
    requires IsDigit(c)
  {
    (c as int) - ('0' as int)
  }

  /** Digits without a leading zero (section 4 of RFC 6901). */
  function ParseIndex(s: string): Option<nat> {
    if s == "" || !IsDigit(s[|s| - 1]) then None
    else if |s| == 1 then Some(DigitValue(s[0]))
    else
      var high := ParseIndex(s[..|s| - 1]);
      if high.None? || high.value == 0 then None else Some(10 * high.value + DigitValue(s[|s| - 1]))
  }

  lemma DigitRoundTrip(d: nat)
    requires d < 10
    ensures IsDigit(Digit(d)) && DigitValue(Digit(d)) == d
  {
  }

  lemma {:induction false} IndexRoundTrip(n: nat)
    ensures ParseIndex(Dec(n)) == Some(n)
  {
    if n < 10 {
      DigitRoundTrip(n);
    } else {
      IndexRoundTrip(n / 10);
      DigitRoundTrip(n % 10);
      var s := Dec(n);
      assert s[..|s| - 1] == Dec(n / 10);
    }
  }

  // ---- The add operation ----

  function Inserted<T>(s: seq<T>, i: nat, v: T): seq<T>
    requires i <= |s|
  {
    s[..i] + [v] + s[i..]
  }

  /** Add at the last token: set an object member, append to or insert into an array. */
  function AddHere(doc: Json, token: string, v: Json): Option<Json> {
    match doc
    case Obj(fields) => Some(Obj(fields[token := v]))
    case Arr(items) =>
      if token == "-" then Some(Arr(items + [v]))
      else
        var i := ParseIndex(token);
        if i.Some? && i.value <= |items| then Some(Arr(Inserted(items, i.value, v))) else None
    case _ => None
  }

  function Add(doc: Json, path: seq<string>, v: Json): Option<Json>
    decreases path
  {
    if path == [] then Some(v)
    else if |path| == 1 then AddHere(doc, path[0], v)
    else match doc
      case Obj(fields) =>
        if path[0] !in fields then None
        else
          var child := Add(fields[path[0]], path[1..], v);
          if child.None? then None else Some(Obj(fields[path[0] := child.value]))
      case Arr(items) =>
        var i := ParseIndex(path[0]);
        if i.None? || i.value >= |items| then None
        else
          var child := Add(items[i.value], path[1..], v);
          if child.None? then None else Some(Arr(items[i.value := child.value]))
      case _ => None
  }

  /** All operations in order; None as soon as one does not apply. */
  function Apply(doc: Json, ops: seq<Op>): Option<Json>
    decreases ops
  {
    if ops == [] then Some(doc)
    else
      var next := Add(doc, ops[0].path, ops[0].value);
      if next.None? then None else Apply(next.value, ops[1..])
  }

  lemma {:induction false} ApplyAppend(doc: Json, a: seq<Op>, b: seq<Op>)
    requires Apply(doc, a).Some?
    ensures Apply(doc, a + b) == Apply(Apply(doc, a).value, b)
    decreases a
  {
    if a == [] {
      assert a + b == b;
    } else {
      ApplyAppend(Add(doc, a[0].path, a[0].value).value, a[1..], b);
      assert (a + b)[1..] == a[1..] + b;
    }
  }

  lemma ApplyOne(doc: Json, op: Op)
    ensures Apply(doc, [op]) == Add(doc, op.path, op.value)
  {
    assert [op][1..] == [];
  }

  // ---- As text ----

  function Written(ops: seq<Op>): (r: seq<JSONPatchOp>)
    ensures |r| == |ops|
  {
    if ops == [] then []
    else Written(ops[..|ops| - 1]) + [JSONPatchOp(Render(ops[|ops| - 1].path), ops[|ops| - 1].value)]
  }

  lemma {:induction false} WrittenAppend(a: seq<Op>, b: seq<Op>)
    ensures Written(a + b) == Written(a) + Written(b)
  {
    if b == [] {
      assert a + b == a;
    } else {
      WrittenAppend(a, b[..|b| - 1]);
      assert (a + b)[..|a + b| - 1] == a + b[..|b| - 1];
    }
  }

  lemma WrittenOne(op: Op)
    ensures Written([op]) == [JSONPatchOp(Render(op.path), op.value)]
  {
    assert [op][..0] == [];
  }

  /** Reading the wire form: parse each pointer, then add. */
  function ApplyPatch(doc: Json, patch: seq<JSONPatchOp>): Option<Json>
    decreases patch
  {
    if patch == [] then Some(doc)
    else
      var path := ParsePointer(patch[0].path);
      if path.None? then None
      else
        var next := Add(doc, path.value, patch[0].value);
        if next.None? then None else ApplyPatch(next.value, patch[1..])
  }

  /** Nothing is lost on the wire: the written patch does what the operations do. */
  lemma {:induction false} WrittenApplies(doc: Json, ops: seq<Op>)
    ensures ApplyPatch(doc, Written(ops)) == Apply(doc, ops)
    decreases ops
  {
    if ops != [] {
      var head, tail := ops[..1], ops[1..];
      assert head + tail == ops && head == [ops[0]];
      WrittenAppend(head, tail);
      WrittenOne(ops[0]);
      assert Written(ops)[1..] == Written(tail);
      PointerRoundTrip(ops[0].path);
      var next := Add(doc, ops[0].path, ops[0].value);
      if next.Some? {
        WrittenApplies(next.value, tail);
      }
    }
  }
}
