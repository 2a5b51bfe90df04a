/** The bracket counter that runs over JSON text before it is parsed. */
module JsonNesting {
  import opened Results

  // ---- JSON texts ----

  /** One character of a string literal: itself, or a backslash and the character after it.  `\u0041` is an
      escaped `u` and four plain characters. */
  datatype StringChar = Plain(c: char) | Escaped(c: char)

  /** A JSON text as its grammar builds it, white space included: `gap` is what stands inside an empty pair of
      brackets or before the first item. */
  datatype Json =
    | Scalar(text: string)
    | Text(chars: seq<StringChar>)
    | Array(gap: string, items: seq<Json>)
    | Object(gap: string, members: seq<Member>)
    | Spaced(before: string, value: Json, after: string)

  datatype Member = Member(before: string, key: seq<StringChar>, between: string, value: Json)

  /** Numbers, the three literals and white space hold no quote and no bracket. */
  predicate Inert(s: string) { forall i :: 0 <= i < |s| ==> s[i] !in "\"[]{}" }

  predicate LegalChars(chars: seq<StringChar>) {
    forall i :: 0 <= i < |chars| ==> chars[i].Plain? ==> chars[i].c != '"' && chars[i].c != '\\'
  }

  predicate WellFormed(j: Json) {
    match j
    case Scalar(text) => Inert(text)
    case Text(chars) => LegalChars(chars)
    case Array(gap, items) => Inert(gap) && forall i :: 0 <= i < |items| ==> WellFormed(items[i])
    case Object(gap, members) => Inert(gap) && forall i :: 0 <= i < |members| ==> WellFormedMember(members[i])
    case Spaced(before, value, after) => Inert(before) && Inert(after) && WellFormed(value)
  }

  predicate WellFormedMember(m: Member) {
    Inert(m.before) && LegalChars(m.key) && Inert(m.between) && WellFormed(m.value)
  }

  function PrintChars(chars: seq<StringChar>): string {
    if chars == [] then ""
    else (if chars[0].Plain? then [chars[0].c] else ['\\', chars[0].c]) + PrintChars(chars[1..])
  }

  function PrintText(chars: seq<StringChar>): string { "\"" + PrintChars(chars) + "\"" }

  function Print(j: Json): string {
    match j
    case Scalar(text) => text
    case Text(chars) => PrintText(chars)
    case Array(gap, items) => "[" + (gap + PrintItems(items)) + "]"
    case Object(gap, members) => "{" + (gap + PrintMembers(members)) + "}"
    case Spaced(before, value, after) => before + Print(value) + after
  }

  function PrintItems(items: seq<Json>): string {
    if items == [] then ""
    else if |items| == 1 then Print(items[0])
    else Print(items[0]) + "," + PrintItems(items[1..])
  }

  function PrintMember(m: Member): string {
    m.before + PrintText(m.key) + (m.between + ":") + Print(m.value)
  }

  function PrintMembers(members: seq<Member>): string {
    if members == [] then ""
    else if |members| == 1 then PrintMember(members[0])
    else PrintMember(members[0]) + "," + PrintMembers(members[1..])
  }

  function Max(a: nat, b: nat): nat { if a < b then b else a }

  /** How many brackets enclose the innermost one, itself included. */
  function Nesting(j: Json): nat {
    match j
    case Scalar(_) => 0
    case Text(_) => 0
    case Array(_, items) => 1 + DeepestItem(items)
    case Object(_, members) => 1 + DeepestMember(members)
    case Spaced(_, value, _) => Nesting(value)
  }

  function DeepestItem(items: seq<Json>): nat {
    if items == [] then 0 else Max(Nesting(items[0]), DeepestItem(items[1..]))
  }

  function DeepestMember(members: seq<Member>): nat {
    if members == [] then 0 else Max(MemberNesting(members[0]), DeepestMember(members[1..]))
  }

  function MemberNesting(m: Member): nat { Nesting(m.value) }

  // ---- the scanner ----

  datatype Scanner = Scanner(depth: nat, inString: bool, escaped: bool)

  function Step(s: Scanner, c: char, limit: nat): Result<Scanner> {
    if s.inString then
      if s.escaped then Ok(s.(escaped := false))
      else if c == '\\' then Ok(s.(escaped := true))
      else if c == '"' then Ok(s.(inString := false))
      else Ok(s)
    else if c == '"' then Ok(s.(inString := true))
    else if c in "[{" then
      if s.depth + 1 > limit then Raised else Ok(s.(depth := s.depth + 1))
    else if c in "]}" && s.depth > 0 then Ok(s.(depth := s.depth - 1))
    else Ok(s)
  }

  function Scan(s: Scanner, text: string, limit: nat): Result<Scanner>
    decreases |text|
  {
    if text == "" then Ok(s)
    else
      var next := Step(s, text[0], limit);
      if next.Raised? then Raised else Scan(next.value, text[1..], limit)
  }

  /** _check_json_nesting */
  method CheckJsonNesting(text: string, limit: nat) returns (ok: bool)
    ensures ok <==> Scan(Scanner(0, false, false), text, limit).Ok?
    ensures forall j :: WellFormed(j) && text == Print(j) ==> (ok <==> Nesting(j) <= limit)
  {
    forall j | WellFormed(j) && text == Print(j)
      ensures Scan(Scanner(0, false, false), text, limit).Ok? <==> Nesting(j) <= limit
    {
      ScanPrinted(j, 0, limit);
    }
    var depth: nat, inString, escaped := 0, false, false;
    var i := 0;
    assert text[0..] == text;
    while i < |text|
      invariant 0 <= i <= |text|
      invariant Scan(Scanner(depth, inString, escaped), text[i..], limit)
             == Scan(Scanner(0, false, false), text, limit)
    {
      var c := text[i];
      assert text[i..][0] == c && text[i..][1..] == text[i + 1..];
      if inString {
        if escaped {
          escaped := false;
        } else if c == '\\' {
          escaped := true;
        } else if c == '"' {
          inString := false;
        }
      } else if c == '"' {
        inString := true;
      } else if c in "[{" {
        depth := depth + 1;
        if depth > limit { return false; }
      } else if c in "]}" && depth > 0 {
        depth := depth - 1;
      }
      i := i + 1;
    }
    ok := true;
  }

  // ---- scanning printed texts ----

  function Then(r: Result<Scanner>, text: string, limit: nat): Result<Scanner> {
    if r.Raised? then Raised else Scan(r.value, text, limit)
  }

  lemma {:induction false} ScanAppend(s: Scanner, x: string, y: string, limit: nat)
    ensures Scan(s, x + y, limit) == Then(Scan(s, x, limit), y, limit)
    decreases |x|
  {
    if x == "" {
      assert x + y == y;
    } else {
      assert (x + y)[1..] == x[1..] + y;
      var next := Step(s, x[0], limit);
      if next.Ok? { ScanAppend(next.value, x[1..], y, limit); }
    }
  }

  lemma {:induction false} ScanInert(depth: nat, text: string, limit: nat)
    requires Inert(text)
    ensures Scan(Scanner(depth, false, false), text, limit) == Ok(Scanner(depth, false, false))
  {
    if text != "" { ScanInert(depth, text[1..], limit); }
  }

  lemma {:induction false} ScanChars(depth: nat, chars: seq<StringChar>, limit: nat)
    requires LegalChars(chars)
    ensures Scan(Scanner(depth, true, false), PrintChars(chars), limit) == Ok(Scanner(depth, true, false))
  {
    if chars != [] {
      var s, rest, text := Scanner(depth, true, false), PrintChars(chars[1..]), PrintChars(chars);
      ScanChars(depth, chars[1..], limit);
      if chars[0].Plain? {
        assert text[0] == chars[0].c && text[1..] == rest;
      } else {
        assert text[0] == '\\' && text[1..][0] == chars[0].c && text[1..][1..] == rest;
        assert Scan(s, text, limit) == Scan(s.(escaped := true), text[1..], limit);
      }
    }
  }

  lemma ScanOne(s: Scanner, c: char, limit: nat)
    ensures Scan(s, [c], limit) == Step(s, c, limit)
  {
    assert [c][1..] == "";
    var next := Step(s, c, limit);
    assert next.Ok? ==> Scan(next.value, "", limit) == next;
  }

  lemma ScanText(depth: nat, chars: seq<StringChar>, limit: nat)
    requires LegalChars(chars)
    ensures Scan(Scanner(depth, false, false), PrintText(chars), limit) == Ok(Scanner(depth, false, false))
  {
    var body := PrintChars(chars);
    assert PrintText(chars) == "\"" + (body + "\"");
    assert PrintText(chars)[1..] == body + "\"";
    ScanChars(depth, chars, limit);
    ScanAppend(Scanner(depth, true, false), body, "\"", limit);
    ScanOne(Scanner(depth, true, false), '"', limit);
    assert Scan(Scanner(depth, false, false), PrintText(chars), limit)
        == Scan(Scanner(depth, true, false), PrintText(chars)[1..], limit);
  }

  /** What scanning one printed piece at some depth comes to. */
  function Outcome(depth: nat, nesting: nat, limit: nat): Result<Scanner> {
    if depth + nesting <= limit then Ok(Scanner(depth, false, false)) else Raised
  }

  /** The scan of a JSON text, strings with any content and escapes included, raises exactly when its
      brackets nest beyond the limit, and otherwise ends outside strings at the depth it began. */
  lemma {:induction false} ScanPrinted(j: Json, depth: nat, limit: nat)
    requires WellFormed(j) && depth <= limit
    ensures Scan(Scanner(depth, false, false), Print(j), limit) == Outcome(depth, Nesting(j), limit)
    decreases j
  {
    match j
    case Scalar(text) => ScanInert(depth, text, limit);
    case Text(chars) => ScanText(depth, chars, limit);
    case Array(gap, items) =>
      if depth < limit { ScanItems(items, depth + 1, limit); }
      ScanBracketed(gap, PrintItems(items), DeepestItem(items), '[', ']', depth, limit);
    case Object(gap, members) =>
      if depth < limit { ScanMembers(members, depth + 1, limit); }
      ScanBracketed(gap, PrintMembers(members), DeepestMember(members), '{', '}', depth, limit);
    case Spaced(before, value, after) =>
      ScanPrinted(value, depth, limit);
      ScanInert(depth, before, limit);
      ScanInert(depth, after, limit);
      ScanAppend(Scanner(depth, false, false), before, Print(value), limit);
      ScanAppend(Scanner(depth, false, false), before + Print(value), after, limit);
  }

  lemma ScanBracketed(
      gap: string, inner: string, nesting: nat, open: char, close: char, depth: nat, limit: nat)
    requires Inert(gap) && depth <= limit
    requires (open == '[' && close == ']') || (open == '{' && close == '}')
    requires depth < limit ==>
      Scan(Scanner(depth + 1, false, false), inner, limit) == Outcome(depth + 1, nesting, limit)
    ensures Scan(Scanner(depth, false, false), [open] + (gap + inner) + [close], limit)
         == Outcome(depth, 1 + nesting, limit)
  {
    var text := [open] + (gap + inner) + [close];
    assert text[0] == open && text[1..] == gap + inner + [close];
    if depth < limit {
      var deeper := Scanner(depth + 1, false, false);
      ScanInert(depth + 1, gap, limit);
      ScanAppend(deeper, gap, inner, limit);
      ScanAppend(deeper, gap + inner, [close], limit);
      ScanOne(deeper, close, limit);
    }
  }

  lemma ScanSeparated(first: string, n: nat, rest: string, m: nat, depth: nat, limit: nat)
    requires Scan(Scanner(depth, false, false), first, limit) == Outcome(depth, n, limit)
    requires Scan(Scanner(depth, false, false), rest, limit) == Outcome(depth, m, limit)
    ensures Scan(Scanner(depth, false, false), first + "," + rest, limit) == Outcome(depth, Max(n, m), limit)
  {
    var s := Scanner(depth, false, false);
    ScanAppend(s, first, ",", limit);
    ScanAppend(s, first + ",", rest, limit);
    ScanInert(depth, ",", limit);
  }

  lemma {:induction false} ScanItems(items: seq<Json>, depth: nat, limit: nat)
    requires (forall i :: 0 <= i < |items| ==> WellFormed(items[i])) && depth <= limit
    ensures Scan(Scanner(depth, false, false), PrintItems(items), limit) == Outcome(depth, DeepestItem(items), limit)
    decreases items
  {
    if items != [] {
      ScanPrinted(items[0], depth, limit);
      ScanItems(items[1..], depth, limit);
      if |items| > 1 {
        ScanSeparated(Print(items[0]), Nesting(items[0]), PrintItems(items[1..]), DeepestItem(items[1..]), depth, limit);
      }
    }
  }

  lemma {:induction false} ScanMember(m: Member, depth: nat, limit: nat)
    requires WellFormedMember(m) && depth <= limit
    ensures Scan(Scanner(depth, false, false), PrintMember(m), limit) == Outcome(depth, Nesting(m.value), limit)
    decreases m
  {
    var s, key := Scanner(depth, false, false), PrintText(m.key);
    ScanPrinted(m.value, depth, limit);
    ScanInert(depth, m.before, limit);
    ScanText(depth, m.key, limit);
    ScanInert(depth, m.between + ":", limit);
    ScanAppend(s, m.before, key, limit);
    ScanAppend(s, m.before + key, m.between + ":", limit);
    ScanAppend(s, m.before + key + (m.between + ":"), Print(m.value), limit);
  }

  lemma {:induction false} ScanMembers(members: seq<Member>, depth: nat, limit: nat)
    requires (forall i :: 0 <= i < |members| ==> WellFormedMember(members[i])) && depth <= limit
    ensures Scan(Scanner(depth, false, false), PrintMembers(members), limit)
         == Outcome(depth, DeepestMember(members), limit)
    decreases members
  {
    if members != [] {
      ScanMember(members[0], depth, limit);
      ScanMembers(members[1..], depth, limit);
      if |members| > 1 {
        ScanSeparated(PrintMember(members[0]), Nesting(members[0].value),
                      PrintMembers(members[1..]), DeepestMember(members[1..]), depth, limit);
      }
    }
  }
}
