/** Values shared by every component: optional values, JSON payloads and decimal text. */
module Basics {

  datatype Option<+T> = None | Some(value: T)

  /** A JSON value as it travels in event and action payloads; `JNull` is also Python's `None`. */
  datatype Json =
    | JNull
    | JBool(b: bool)
    | JNum(n: real)
    | JStr(s: string)
    | JList(items: seq<Json>)
    | JObj(fields: map<string, Json>)

  type Payload = map<string, Json>

  /** `payload.get(key)` */
  function Get(p: Payload, key: string): Json {
    if key in p then p[key] else JNull
  }

  /** Python truth value of a JSON value. */
  predicate Truthy(j: Json) {
    match j
    case JNull => false
    case JBool(b) => b
    case JNum(n) => n != 0.0
    case JStr(s) => s != ""
    case JList(items) => items != []
    case JObj(fields) => fields != map[]
  }

  /** `a or b` on optional strings: the empty string counts as absent. */
  function OrElse(a: Option<string>, b: Option<string>): Option<string> {
    if a.Some? && a.value != "" then a else b
  }

  function FromJson(j: Json): Option<string> {
    if j.JStr? then Some(j.s) else None
  }

  predicate StartsWith(s: string, prefix: string) {
    prefix <= s
  }

  predicate NoDuplicates(s: seq<string>) {
    forall i, j :: 0 <= i < j < |s| ==> s[i] != s[j]
  }

  function Elements(s: seq<string>): set<string> { set x | x in s }

  lemma ElementsSnoc(s: seq<string>, x: string)
    requires NoDuplicates(s) && x !in Elements(s)
    ensures NoDuplicates(s + [x]) && Elements(s + [x]) == Elements(s) + {x}
  {
  }
}

/** Decimal text of integers, as `f"{n}"` prints it and `int(text)` reads it back. */
module Decimal {

  predicate IsDigit(c: char) { '0' <= c <= '9' }

  predicate AllDigits(s: string) {
    forall i :: 0 <= i < |s| ==> IsDigit(s[i])
  }

  function DigitChar(d: nat): (c: char)
    requires d < 10
    ensures IsDigit(c) && DigitValue(c) == d
  {
    ('0' as int + d) as char
  }

  function DigitValue(c: char): (d: nat)
    requires IsDigit(c)
    ensures d < 10
  {
    c as int - '0' as int
  }

  function Print(n: nat): (s: string)
    ensures AllDigits(s) && |s| > 0
  {
    if n < 10 then [DigitChar(n)] else Print(n / 10) + [DigitChar(n % 10)]
  }

  function ReadDigits(s: string): nat
    requires AllDigits(s)
  {
    if s == [] then 0 else 10 * ReadDigits(s[..|s| - 1]) + DigitValue(s[|s| - 1])
  }

  function PrintInt(n: int): (s: string)
    ensures forall i :: 0 <= i < |s| ==> IsDigit(s[i]) || s[i] == '-'
  {
    if n < 0 then "-" + Print(-n) else Print(n)
  }

  /** `s` is `t` behind some number of zeros. */
  predicate ZeroPadded(s: string, t: string) {
    |t| <= |s| && s[|s| - |t|..] == t && forall i :: 0 <= i < |s| - |t| ==> s[i] == '0'
  }

  lemma {:induction false} ReadAfterPrint(n: nat)
    ensures ReadDigits(Print(n)) == n
  {
    if n < 10 {
      assert Print(n)[..0] == [];
    } else {
      ReadAfterPrint(n / 10);
      assert Print(n)[..|Print(n)| - 1] == Print(n / 10);
    }
  }

  lemma PrintShift(a: nat, c: char)
    requires IsDigit(c)
    ensures Print(10 * a + DigitValue(c)) == if a == 0 then [c] else Print(a) + [c]
  {
    var v := 10 * a + DigitValue(c);
    assert v / 10 == a && v % 10 == DigitValue(c);
    assert DigitChar(DigitValue(c)) == c;
  }

  lemma PadShift(front: string, t: string, c: char)
    requires ZeroPadded(front, t)
    ensures ZeroPadded(front + [c], t + [c])
    ensures t == ['0'] ==> ZeroPadded(front + [c], [c])
  {
    var k := |front| - |t|;
    assert (front + [c])[k..] == front[k..] + [c];
    if t == ['0'] {
      assert front[k] == front[k..][0] == '0';
    }
  }

  lemma PadStep(front: string, a: nat, c: char)
    requires IsDigit(c) && ZeroPadded(front, Print(a))
    ensures ZeroPadded(front + [c], Print(10 * a + DigitValue(c)))
  {
    PrintShift(a, c);
    PadShift(front, Print(a), c);
    if a == 0 {
      assert Print(a) == ['0'];
    }
  }

  lemma ReadShift(front: string, c: char)
    requires AllDigits(front) && IsDigit(c)
    ensures AllDigits(front + [c]) && ReadDigits(front + [c]) == 10 * ReadDigits(front) + DigitValue(c)
  {
    assert (front + [c])[..|front|] == front;
  }

  /** Reading forgets leading zeros and nothing else. */
  lemma {:induction false} PrintAfterRead(s: string)
    requires AllDigits(s) && |s| > 0
    ensures ZeroPadded(s, Print(ReadDigits(s)))
  {
    var front, c := s[..|s| - 1], s[|s| - 1];
    ReadShift(front, c);
    assert front + [c] == s;
    if front == [] {
      PrintShift(0, c);
    } else {
      PrintAfterRead(front);
      PadStep(front, ReadDigits(front), c);
    }
  }
}
