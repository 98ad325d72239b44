/** TOML values, decimal array indices and path lookup. */
module Toml {
  import opened Prelude

  datatype Scalar =
    | Str(s: string)
    | Integer(i: int)
    | Float(text: string)
    | Boolean(b: bool)
    | Datetime(text: string)

  datatype Value =
    | Leaf(scalar: Scalar)
    | Array(items: seq<Value>)
    | Table(entries: map<string, Value>)

  type Path = seq<string>

  const I64_MAX: int := 0x7fff_ffff_ffff_ffff

  predicate IsDigit(c: char) { '0' <= c <= '9' }

  function DigitValue(c: char): (d: nat)
    requires IsDigit(c)
    ensures d < 10
  {
    c as int - '0' as int
  }

  function DigitChar(d: nat): (c: char)
    requires d < 10
    ensures IsDigit(c) && DigitValue(c) == d
  {
    (d + '0' as int) as char
  }

  // The canonical decimal text of an index, as `idx.to_string()` writes it.
  function Decimal(n: nat): (s: string)
    ensures |s| > 0 && forall i :: 0 <= i < |s| ==> IsDigit(s[i])
  {
    if n < 10 then [DigitChar(n)] else Decimal(n / 10) + [DigitChar(n % 10)]
  }

  function Digits(s: string): nat
    requires forall i :: 0 <= i < |s| ==> IsDigit(s[i])
  {
    if s == [] then 0 else 10 * Digits(s[..|s| - 1]) + DigitValue(s[|s| - 1])
  }

  function Unsigned(s: string): string { if |s| > 0 && (s[0] == '-' || s[0] == '+') then s[1..] else s }

  predicate AllDigits(s: string) { forall i :: 0 <= i < |s| ==> IsDigit(s[i]) }

  // `str::parse::<i64>`: an optional sign, then at least one digit, in range.
  function ParseI64(s: string): Option<int> {
    var body := Unsigned(s);
    if body == [] || !AllDigits(body) then None
    else
      var n: int := (if s[0] == '-' then -1 else 1) * Digits(body);
      if -I64_MAX - 1 <= n <= I64_MAX then Some(n) else None
  }

  lemma {:induction false} DigitsOfDecimal(n: nat)
    ensures Digits(Decimal(n)) == n
  {
    if n >= 10 {
      DigitsOfDecimal(n / 10);
      var s := Decimal(n);
      assert s[..|s| - 1] == Decimal(n / 10);
    }
  }

  lemma ParseDecimal(n: nat)
    requires n <= I64_MAX
    ensures ParseI64(Decimal(n)) == Some(n)
  {
    DigitsOfDecimal(n);
    assert IsDigit(Decimal(n)[0]);
  }

  // Signs are read as Rust reads them.
  lemma ParseSigned(n: int)
    requires n >= 0
    ensures n <= I64_MAX ==> ParseI64("+" + Decimal(n)) == Some(n)
    ensures n <= I64_MAX + 1 ==> var minus: int := -n; ParseI64("-" + Decimal(n)) == Some(minus)
    ensures n > I64_MAX ==> ParseI64(Decimal(n)) == None
  {
    DigitsOfDecimal(n);
    var s := Decimal(n);
    assert IsDigit(s[0]);
    assert ("+" + s)[1..] == s && ("-" + s)[1..] == s;
  }

  // Anything but an optional sign and digits is no index.
  lemma ParseRejects(s: string, i: nat)
    requires i < |s| && !IsDigit(s[i]) && (i > 0 || (s[0] != '+' && s[0] != '-'))
    ensures ParseI64(s) == None
  {
    var body := Unsigned(s);
    var at := if s[0] == '-' || s[0] == '+' then i - 1 else i;
    assert body[at] == s[i];
    assert !AllDigits(body);
  }

  // One segment of `value_at_path`: a key of a table or an index of an array.
  function Child(v: Value, segment: string): Option<Value> {
    match v
    case Table(entries) => if segment in entries then Some(entries[segment]) else None
    case Array(items) =>
      (match ParseI64(segment)
       case Some(i) => if 0 <= i < |items| then Some(items[i]) else None
       case None => None)
    case Leaf(_) => None
  }

  function Lookup(v: Value, path: Path): Option<Value> {
    if path == [] then Some(v)
    else match Child(v, path[0])
      case None => None
      case Some(w) => Lookup(w, path[1..])
  }

  // A table is entered by key, an array by an index within it, and nothing else has parts.
  lemma ChildExactly(v: Value, segment: string, w: Value)
    ensures Child(v, segment) == Some(w) <==>
            || (v.Table? && segment in v.entries && v.entries[segment] == w)
            || (v.Array? && exists i :: 0 <= i < |v.items| && ParseI64(segment) == Some(i) && v.items[i] == w)
  {
  }

  lemma {:induction false} LookupConcat(v: Value, p: Path, q: Path)
    ensures Lookup(v, p + q) ==
            match Lookup(v, p) { case None => None case Some(w) => Lookup(w, q) }
  {
    if p == [] {
      assert p + q == q;
    } else {
      assert (p + q)[1..] == p[1..] + q;
      match Child(v, p[0]) {
        case None =>
        case Some(w) => LookupConcat(w, p[1..], q);
      }
    }
  }

  // The loop of `value_at_path`.
  method ValueAtPath(root: Value, segments: Path) returns (found: Option<Value>)
    ensures found == Lookup(root, segments)
  {
    var current := root;
    for n := 0 to |segments|
      invariant Lookup(root, segments) == Lookup(current, segments[n..])
    {
      assert segments[n..][1..] == segments[n + 1..];
      match current {
        case Table(entries) =>
          if segments[n] !in entries { return None; }
          current := entries[segments[n]];
        case Array(items) =>
          var idx := ParseI64(segments[n]);
          if idx.None? || idx.value < 0 || idx.value >= |items| { return None; }
          current := items[idx.value];
        case Leaf(_) => return None;
      }
    }
    return Some(current);
  }

  predicate IsTableAt(v: Value, path: Path) {
    Lookup(v, path).Some? && Lookup(v, path).value.Table?
  }

  // `path.join(".")`.
  function Join(path: Path): string {
    if path == [] then ""
    else if |path| == 1 then path[0]
    else path[0] + "." + Join(path[1..])
  }
}
