/** The subset of JSON the pipeline writes and reads: `null`, booleans, integers,
    strings that need no escape sequence, and objects. `Stringify` is
    `JSON.stringify` on these values and `Parse` is `JSON.parse` on their text. */
module Json {
  import opened Base

  datatype Json =
    | JNull
    | JBool(b: bool)
    | JNum(n: int)
    | JStr(s: string)
    | JObj(members: seq<Member>)

  /** One `"key": value` pair of an object, in the order written. */
  datatype Member = Member(key: string, value: Json)

  predicate IsDigit(c: char) {
    '0' <= c <= '9'
  }

  /** A character `JSON.stringify` copies into a string literal unchanged. */
  predicate PlainChar(c: char) {
    c != '"' && c != '\\' && c >= ' '
  }

  predicate Plain(s: string) {
    forall i :: 0 <= i < |s| ==> PlainChar(s[i])
  }

  /** Every string and key is plain, so `Stringify` needs no escape sequence. */
  predicate WellFormed(j: Json)
    decreases j, 1
  {
    match j
    case JStr(s) => Plain(s)
    case JObj(ms) => MembersWellFormed(ms)
    case _ => true
  }

  predicate MembersWellFormed(ms: seq<Member>)
    decreases ms, 0
  {
    ms == [] || (Plain(ms[0].key) && WellFormed(ms[0].value) && MembersWellFormed(ms[1..]))
  }

  // ----- Serialisation (JSON.stringify) -----

  function DigitChar(d: nat): (c: char)
    requires d < 10
    ensures IsDigit(c)
  {
    (('0' as int) + d) as char
  }

  function DigitValue(c: char): (d: nat)
    requires IsDigit(c)
    ensures d < 10 && DigitChar(d) == c
  {
    (c as int) - ('0' as int)
  }

  predicate AllDigits(s: string) {
    forall i :: 0 <= i < |s| ==> IsDigit(s[i])
  }

  /** Decimal text of a natural number: only digits, and a leading `0` only for zero itself. */
  function NatText(n: nat): (r: string)
    ensures |r| >= 1 && AllDigits(r)
    ensures (r[0] == '0') == (n == 0)
    ensures |r| == 1 <==> n < 10
  {
    if n < 10 then [DigitChar(n)] else NatText(n / 10) + [DigitChar(n % 10)]
  }

  /** The number a run of decimal digits denotes. */
  function DigitsValue(s: string): nat
    requires AllDigits(s)
  {
    if s == [] then 0 else DigitsValue(s[..|s| - 1]) * 10 + DigitValue(s[|s| - 1])
  }

  lemma {:induction false} NatTextValue(n: nat)
    ensures DigitsValue(NatText(n)) == n
  {
    if n >= 10 {
      var r := NatText(n);
      assert r[..|r| - 1] == NatText(n / 10);
      NatTextValue(n / 10);
    }
  }

  function IntText(n: int): (r: string)
    ensures |r| >= 1 && (r[0] == '-' || IsDigit(r[0]))
  {
    if n < 0 then "-" + NatText(-n) else NatText(n)
  }

  function Quote(s: string): string {
    "\"" + s + "\""
  }

  function Stringify(j: Json): (r: string)
    ensures |r| >= 1
    decreases j, 1
  {
    match j
    case JNull => "null"
    case JBool(b) => if b then "true" else "false"
    case JNum(n) => IntText(n)
    case JStr(s) => Quote(s)
    case JObj(ms) => "{" + MembersText(ms) + "}"
  }

  /** The members of an object, separated by commas. */
  function MembersText(ms: seq<Member>): string
    decreases ms, 0
  {
    if ms == [] then ""
    else
      Quote(ms[0].key) + ":" + Stringify(ms[0].value)
      + (if |ms| == 1 then "" else "," + MembersText(ms[1..]))
  }

  // ----- Parsing (JSON.parse) -----
  // Each parser takes the text still to be read and returns the value read
  // together with the text that follows it.

  /** A string literal's body up to its closing quote; an escape sequence or a
      control character is not part of the subset. */
  function ParseStringBody(s: string): (r: Option<(string, string)>)
    ensures r.Some? ==> |r.value.1| < |s|
  {
    if s == [] then None
    else if s[0] == '"' then Some(("", s[1..]))
    else if !PlainChar(s[0]) then None
    else
      match ParseStringBody(s[1..])
      case None => None
      case Some((body, rest)) => Some(([s[0]] + body, rest))
  }

  /** The length of the run of digits that starts `s`. */
  function DigitRun(s: string): (k: nat)
    ensures k <= |s| && AllDigits(s[..k])
    ensures k < |s| ==> !IsDigit(s[k])
  {
    if s != [] && IsDigit(s[0]) then
      var k := 1 + DigitRun(s[1..]);
      assert s[..k] == [s[0]] + s[1..][..k - 1];
      k
    else 0
  }

  /** An integer: an optional minus sign, then digits without a superfluous leading zero. */
  function ParseNumber(s: string): (r: Option<(Json, string)>)
    ensures r.Some? ==> |r.value.1| < |s|
  {
    var neg := s != [] && s[0] == '-';
    var t := if neg then s[1..] else s;
    var k := DigitRun(t);
    if k == 0 || (k > 1 && t[0] == '0') then None
    else
      var v: int := DigitsValue(t[..k]);
      Some((JNum(if neg then -v else v), t[k..]))
  }

  function ParseValue(s: string): (r: Option<(Json, string)>)
    ensures r.Some? ==> |r.value.1| < |s|
    decreases |s|, 2
  {
    if s == [] then None
    else if s[0] == 'n' then
      if |s| >= 4 && s[..4] == "null" then Some((JNull, s[4..])) else None
    else if s[0] == 't' then
      if |s| >= 4 && s[..4] == "true" then Some((JBool(true), s[4..])) else None
    else if s[0] == 'f' then
      if |s| >= 5 && s[..5] == "false" then Some((JBool(false), s[5..])) else None
    else if s[0] == '"' then
      match ParseStringBody(s[1..])
      case None => None
      case Some((body, rest)) => Some((JStr(body), rest))
    else if s[0] == '{' then
      ParseObject(s[1..])
    else if s[0] == '-' || IsDigit(s[0]) then
      ParseNumber(s)
    else None
  }

  /** The rest of an object after its opening brace. */
  function ParseObject(s: string): (r: Option<(Json, string)>)
    ensures r.Some? ==> |r.value.1| < |s|
    decreases |s|, 1
  {
    if s != [] && s[0] == '}' then Some((JObj([]), s[1..]))
    else
      match ParseMembers(s)
      case None => None
      case Some((ms, rest)) => Some((JObj(ms), rest))
  }

  /** One or more members separated by commas, then the closing brace. */
  function ParseMembers(s: string): (r: Option<(seq<Member>, string)>)
    ensures r.Some? ==> |r.value.1| < |s| && |r.value.0| >= 1
    decreases |s|, 0
  {
    if s == [] || s[0] != '"' then None
    else
      match ParseStringBody(s[1..])
      case None => None
      case Some((key, rest)) => MemberAfterKey(key, rest)
  }

  /** The colon, the value and the separator that follow a member's key. */
  function MemberAfterKey(key: string, s: string): (r: Option<(seq<Member>, string)>)
    ensures r.Some? ==> |r.value.1| < |s| && |r.value.0| >= 1
    decreases |s|, 0
  {
    if s == [] || s[0] != ':' then None
    else
      match ParseValue(s[1..])
      case None => None
      case Some((v, rest)) =>
        if rest != [] && rest[0] == '}' then Some(([Member(key, v)], rest[1..]))
        else if rest != [] && rest[0] == ',' then
          match ParseMembers(rest[1..])
          case None => None
          case Some((more, rest2)) => Some(([Member(key, v)] + more, rest2))
        else None
  }

  /** `JSON.parse`: one value and nothing after it; `None` where it would throw. */
  function Parse(s: string): Option<Json> {
    match ParseValue(s)
    case Some((j, rest)) => if rest == [] then Some(j) else None
    case None => None
  }

  // ----- Round trip -----

  lemma {:induction false} StringBodyRoundTrip(body: string, rest: string)
    requires Plain(body)
    ensures ParseStringBody(body + "\"" + rest) == Some((body, rest))
  {
    if body != [] {
      assert (body + "\"" + rest)[1..] == body[1..] + "\"" + rest;
      StringBodyRoundTrip(body[1..], rest);
      assert [body[0]] + body[1..] == body;
    } else {
      assert body + "\"" + rest == "\"" + rest;
    }
  }

  lemma {:induction false} DigitRunOf(ds: string, rest: string)
    requires AllDigits(ds)
    requires rest == [] || !IsDigit(rest[0])
    ensures DigitRun(ds + rest) == |ds|
  {
    if ds != [] {
      assert (ds + rest)[1..] == ds[1..] + rest;
      DigitRunOf(ds[1..], rest);
    }
  }

  lemma NumberRoundTrip(n: int, rest: string)
    requires rest == [] || !IsDigit(rest[0])
    ensures ParseNumber(IntText(n) + rest) == Some((JNum(n), rest))
  {
    var m: nat := if n < 0 then -n else n;
    var ds := NatText(m);
    var t := ds + rest;
    DigitRunOf(ds, rest);
    assert t[..|ds|] == ds;
    assert t[|ds|..] == rest;
    NatTextValue(m);
    if n < 0 {
      var s := "-" + t;
      assert IntText(n) + rest == s;
      assert s[1..] == t;
    } else {
      assert IntText(n) + rest == t;
    }
  }

  lemma ScalarRoundTrip(j: Json, rest: string)
    requires j.JNull? || j.JBool?
    ensures ParseValue(Stringify(j) + rest) == Some((j, rest))
  {
    var s := Stringify(j) + rest;
    if j.JNull? || j.b {
      assert s[..4] == Stringify(j) && s[4..] == rest;
    } else {
      assert s[..5] == "false" && s[5..] == rest;
    }
  }

  lemma NumberValueRoundTrip(n: int, rest: string)
    requires rest == [] || !IsDigit(rest[0])
    ensures ParseValue(Stringify(JNum(n)) + rest) == Some((JNum(n), rest))
  {
    NumberRoundTrip(n, rest);
    var s := IntText(n) + rest;
    assert s[0] == '-' || IsDigit(s[0]);
  }

  lemma StringValueRoundTrip(str: string, rest: string)
    requires Plain(str)
    ensures ParseValue(Stringify(JStr(str)) + rest) == Some((JStr(str), rest))
  {
    var s := Stringify(JStr(str)) + rest;
    assert s == "\"" + (str + "\"" + rest);
    assert s[1..] == str + "\"" + rest;
    StringBodyRoundTrip(str, rest);
  }

  lemma ObjectValueStep(body: string)
    ensures ParseValue("{" + body) == ParseObject(body)
  {
    assert ("{" + body)[1..] == body;
  }

  /** `JSON.parse` reads back what `JSON.stringify` wrote, whatever text follows
      (as long as a number is not run together with further digits). */
  lemma {:induction false} ValueRoundTrip(j: Json, rest: string)
    requires WellFormed(j)
    requires rest == [] || !IsDigit(rest[0])
    ensures ParseValue(Stringify(j) + rest) == Some((j, rest))
    decreases j, 1
  {
    match j
    case JNull => ScalarRoundTrip(j, rest);
    case JBool(_) => ScalarRoundTrip(j, rest);
    case JNum(n) => NumberValueRoundTrip(n, rest);
    case JStr(str) => StringValueRoundTrip(str, rest);
    case JObj(ms) => ObjectRoundTrip(ms, rest);
  }

  lemma {:induction false} ObjectRoundTrip(ms: seq<Member>, rest: string)
    requires MembersWellFormed(ms)
    ensures ParseValue(Stringify(JObj(ms)) + rest) == Some((JObj(ms), rest))
    decreases ms, 1
  {
    var body := MembersText(ms) + "}" + rest;
    assert Stringify(JObj(ms)) + rest == "{" + body;
    ObjectValueStep(body);
    if ms == [] {
      assert body == "}" + rest;
    } else {
      MembersRoundTrip(ms, rest);
      assert body[0] == '"';
    }
  }

  /** Reading one member starts with its key. */
  lemma KeyStep(key: string, after: string)
    requires Plain(key)
    ensures ParseMembers("\"" + key + "\"" + after) == MemberAfterKey(key, after)
  {
    var s := "\"" + key + "\"" + after;
    assert s == "\"" + (key + "\"" + after);
    assert s[1..] == key + "\"" + after;
    StringBodyRoundTrip(key, after);
  }

  /** The last member of an object is followed by the closing brace. */
  lemma LastMemberStep(key: string, v: Json, text: string, tail: string, rest: string)
    requires tail == "}" + rest
    requires ParseValue(text + tail) == Some((v, tail))
    ensures MemberAfterKey(key, ":" + text + tail) == Some(([Member(key, v)], rest))
  {
    assert (":" + text + tail)[1..] == text + tail;
    assert tail[1..] == rest;
  }

  /** Any other member is followed by a comma and the next member. */
  lemma NextMemberStep(key: string, v: Json, text: string, more: seq<Member>, tail: string, rest: string)
    requires |tail| >= 1 && tail[0] == ','
    requires ParseValue(text + tail) == Some((v, tail))
    requires ParseMembers(tail[1..]) == Some((more, rest))
    ensures MemberAfterKey(key, ":" + text + tail) == Some(([Member(key, v)] + more, rest))
  {
    assert (":" + text + tail)[1..] == text + tail;
  }

  /** The text after the first member's value: the closing brace, or a comma and the rest. */
  function AfterFirst(ms: seq<Member>, rest: string): string
    requires |ms| >= 1
  {
    if |ms| == 1 then "}" + rest else "," + (MembersText(ms[1..]) + "}" + rest)
  }

  lemma MembersTextFirst(ms: seq<Member>, rest: string)
    requires |ms| >= 1
    ensures MembersText(ms) + "}" + rest
      == "\"" + ms[0].key + "\"" + (":" + Stringify(ms[0].value) + AfterFirst(ms, rest))
  {
    var t := if |ms| == 1 then "" else "," + MembersText(ms[1..]);
    MembersTextUnfold(ms, t);
    AfterFirstUnfold(ms, rest, t);
    Assoc("\"" + ms[0].key + "\"", ":", Stringify(ms[0].value), t, "}", rest);
  }

  lemma MembersTextUnfold(ms: seq<Member>, t: string)
    requires |ms| >= 1 && t == if |ms| == 1 then "" else "," + MembersText(ms[1..])
    ensures MembersText(ms) == "\"" + ms[0].key + "\"" + ":" + Stringify(ms[0].value) + t
  {
  }

  lemma AfterFirstUnfold(ms: seq<Member>, rest: string, t: string)
    requires |ms| >= 1 && t == if |ms| == 1 then "" else "," + MembersText(ms[1..])
    ensures AfterFirst(ms, rest) == t + "}" + rest
  {
    if |ms| == 1 {
      assert t + "}" + rest == "}" + rest;
    }
  }

  lemma Assoc(a: string, b: string, c: string, d: string, e: string, f: string)
    ensures a + b + c + d + e + f == a + (b + c + (d + e + f))
  {
  }

  /** Reading a member list reads its first member, then what follows it. */
  lemma MembersStep(ms: seq<Member>, rest: string)
    requires |ms| >= 1 && Plain(ms[0].key)
    requires ParseValue(Stringify(ms[0].value) + AfterFirst(ms, rest)) == Some((ms[0].value, AfterFirst(ms, rest)))
    requires |ms| > 1 ==> ParseMembers(MembersText(ms[1..]) + "}" + rest) == Some((ms[1..], rest))
    ensures ParseMembers(MembersText(ms) + "}" + rest) == Some((ms, rest))
  {
    var m := ms[0];
    var after := ":" + Stringify(m.value) + AfterFirst(ms, rest);
    MembersTextFirst(ms, rest);
    KeyStep(m.key, after);
    if |ms| == 1 {
      LastMemberStep(m.key, m.value, Stringify(m.value), AfterFirst(ms, rest), rest);
      assert [m] == ms;
    } else {
      NextMemberStep(m.key, m.value, Stringify(m.value), ms[1..], AfterFirst(ms, rest), rest);
      assert [m] + ms[1..] == ms;
    }
  }

  lemma {:induction false} MembersRoundTrip(ms: seq<Member>, rest: string)
    requires |ms| >= 1 && MembersWellFormed(ms)
    ensures ParseMembers(MembersText(ms) + "}" + rest) == Some((ms, rest))
    decreases ms, 0
  {
    ValueRoundTrip(ms[0].value, AfterFirst(ms, rest));
    if |ms| > 1 {
      MembersRoundTrip(ms[1..], rest);
    }
    MembersStep(ms, rest);
  }

  /** The round trip at the top level: `JSON.parse(JSON.stringify(v))` is `v`. */
  lemma ParseStringify(j: Json)
    requires WellFormed(j)
    ensures Parse(Stringify(j)) == Some(j)
  {
    ValueRoundTrip(j, "");
    assert Stringify(j) + "" == Stringify(j);
  }

  /** The first and last characters of a serialised value are never white space,
      so trimming the text leaves it whole. */
  /** The characters a serialised value can begin with. */
  predicate OpensValue(c: char) {
    c == '-' || IsDigit(c) || c == 't' || c == 'f' || c == 'n' || c == '"' || c == '{'
  }

  /** The characters a serialised value can end with. */
  predicate ClosesValue(c: char) {
    IsDigit(c) || c == 'e' || c == 'l' || c == '"' || c == '}'
  }

  lemma StringifyEnds(j: Json)
    ensures var r := Stringify(j);
      OpensValue(r[0]) && ClosesValue(r[|r| - 1])
  {
    var r := Stringify(j);
    match j
    case JNull =>
      assert r == "null";
    case JBool(b) =>
      assert r == if b then "true" else "false";
    case JNum(n) =>
      var t := NatText(if n < 0 then -n else n);
      assert r[|r| - 1] == t[|t| - 1];
      assert IsDigit(t[|t| - 1]);
    case JStr(s) =>
      assert r == "\"" + s + "\"";
      assert r[0] == '"' && r[|r| - 1] == '"';
    case JObj(ms) =>
      assert r == "{" + MembersText(ms) + "}";
      assert r[0] == '{' && r[|r| - 1] == '}';
  }

  // ----- Characters a serialised value can hold -----

  /** The characters `Stringify` writes besides those of the value's strings and keys. */
  const SyntaxChars := "{}\":,-0123456789nulltrfase"

  /** No string or key inside `j` holds `c`. */
  predicate Avoids(j: Json, c: char)
    decreases j, 1
  {
    match j
    case JStr(s) => c !in s
    case JObj(ms) => MembersAvoid(ms, c)
    case _ => true
  }

  predicate MembersAvoid(ms: seq<Member>, c: char)
    decreases ms, 0
  {
    ms == [] || (c !in ms[0].key && Avoids(ms[0].value, c) && MembersAvoid(ms[1..], c))
  }

  /** A character that is neither syntax nor part of any string of the value
      does not occur in its serialisation. */
  lemma {:induction false} StringifyAvoids(j: Json, c: char)
    requires Avoids(j, c) && c !in SyntaxChars
    ensures c !in Stringify(j)
    decreases j, 1
  {
    match j
    case JNum(n) =>
      var m: nat := if n < 0 then -n else n;
      assert forall i :: 0 <= i < |NatText(m)| ==> IsDigit(NatText(m)[i]);
      assert !IsDigit(c);
    case JObj(ms) =>
      MembersTextAvoids(ms, c);
    case _ =>
  }

  lemma {:induction false} MembersTextAvoids(ms: seq<Member>, c: char)
    requires MembersAvoid(ms, c) && c !in SyntaxChars
    ensures c !in MembersText(ms)
    decreases ms, 0
  {
    if ms != [] {
      StringifyAvoids(ms[0].value, c);
      if |ms| > 1 {
        MembersTextAvoids(ms[1..], c);
      }
    }
  }

  /** A well-formed value holds no control character, a line feed included. */
  lemma {:induction false} WellFormedAvoids(j: Json, c: char)
    requires WellFormed(j) && c < ' '
    ensures Avoids(j, c)
    decreases j, 1
  {
    match j
    case JStr(s) =>
      assert forall i :: 0 <= i < |s| ==> PlainChar(s[i]);
    case JObj(ms) =>
      MembersWellFormedAvoid(ms, c);
    case _ =>
  }

  lemma {:induction false} MembersWellFormedAvoid(ms: seq<Member>, c: char)
    requires MembersWellFormed(ms) && c < ' '
    ensures MembersAvoid(ms, c)
    decreases ms, 0
  {
    if ms != [] {
      assert forall i :: 0 <= i < |ms[0].key| ==> PlainChar(ms[0].key[i]);
      WellFormedAvoids(ms[0].value, c);
      MembersWellFormedAvoid(ms[1..], c);
    }
  }

  lemma ConsWellFormed(m: Member, rest: seq<Member>)
    requires Plain(m.key) && WellFormed(m.value) && MembersWellFormed(rest)
    ensures MembersWellFormed([m] + rest)
  {
    assert ([m] + rest)[1..] == rest;
  }

  lemma ConsAvoids(m: Member, rest: seq<Member>, c: char)
    requires c !in m.key && Avoids(m.value, c) && MembersAvoid(rest, c)
    ensures MembersAvoid([m] + rest, c)
  {
    assert ([m] + rest)[1..] == rest;
  }

  // ----- Values as JavaScript sees them -----

  /** JavaScript truthiness of a parsed value. */
  predicate Truthy(j: Json) {
    match j
    case JNull => false
    case JBool(b) => b
    case JNum(n) => n != 0
    case JStr(s) => s != ""
    case JObj(_) => true
  }

  /** Property lookup on a parsed object; `JSON.parse` keeps the last of repeated keys. */
  function Get(j: Json, key: string): (r: Option<Json>)
    ensures r.Some? ==> j.JObj? && Member(key, r.value) in j.members
    ensures r.Some? ==> exists i :: 0 <= i < |j.members| && j.members[i] == Member(key, r.value) &&
                                    (forall k :: i < k < |j.members| ==> j.members[k].key != key)
    ensures r.None? <==> !j.JObj? || forall i :: 0 <= i < |j.members| ==> j.members[i].key != key
  {
    if j.JObj? then LastValueIsLast(j.members, key); LastValue(j.members, key) else None
  }

  /** A member with another key, wherever it stands, does not change the lookup. */
  lemma {:induction false} LastValueSkips(ms1: seq<Member>, extra: Member, ms2: seq<Member>, key: string)
    requires extra.key != key
    ensures LastValue(ms1 + [extra] + ms2, key) == LastValue(ms1 + ms2, key)
  {
    if ms2 == [] {
      assert (ms1 + [extra] + ms2)[..|ms1| + 1 - 1] == ms1 + ms2;
    } else if ms2[|ms2| - 1].key != key {
      var init := ms2[..|ms2| - 1];
      LastValueSkips(ms1, extra, init, key);
      LastValueDrop(ms1 + [extra] + ms2, ms1 + [extra] + init, key);
      LastValueDrop(ms1 + ms2, ms1 + init, key);
    } else {
      assert (ms1 + [extra] + ms2)[|ms1| + 1 + |ms2| - 1] == ms2[|ms2| - 1];
      assert (ms1 + ms2)[|ms1| + |ms2| - 1] == ms2[|ms2| - 1];
    }
  }

  /** A last member with another key is passed over. */
  lemma LastValueDrop(ms: seq<Member>, init: seq<Member>, key: string)
    requires |ms| > 0 && init == ms[..|ms| - 1] && ms[|ms| - 1].key != key
    ensures LastValue(ms, key) == LastValue(init, key)
  {
  }

  function LastValue(ms: seq<Member>, key: string): (r: Option<Json>)
    ensures r.Some? ==> Member(key, r.value) in ms
    ensures r.None? <==> forall i :: 0 <= i < |ms| ==> ms[i].key != key
  {
    if ms == [] then None
    else if ms[|ms| - 1].key == key then Some(ms[|ms| - 1].value)
    else LastValue(ms[..|ms| - 1], key)
  }

  /** The member `LastValue` reads is the last one with the key. */
  lemma {:induction false} LastValueIsLast(ms: seq<Member>, key: string)
    ensures LastValue(ms, key).Some? ==>
      exists i :: 0 <= i < |ms| && ms[i] == Member(key, LastValue(ms, key).value) &&
                  (forall k :: i < k < |ms| ==> ms[k].key != key)
  {
    if ms != [] && ms[|ms| - 1].key != key {
      var init := ms[..|ms| - 1];
      LastValueIsLast(init, key);
      if LastValue(init, key).Some? {
        var i :| 0 <= i < |init| && init[i] == Member(key, LastValue(init, key).value) &&
                 (forall k :: i < k < |init| ==> init[k].key != key);
        assert ms[i] == init[i];
        assert forall k :: i < k < |ms| ==> ms[k].key != key;
      }
    } else if ms != [] {
      assert ms[|ms| - 1] == Member(key, LastValue(ms, key).value);
    }
  }
}
