/** The key-path parser of the configuration service. */
module KeyPath {
  import opened Prelude

  datatype KeyPathError = EmptyPath | UnterminatedEscape | EmptySegment | InvalidQuote | UnterminatedQuote

  // Unicode White_Space, as `str::trim` strips it.
  predicate IsWhitespace(c: char) {
    var n := c as int;
    || 0x09 <= n <= 0x0d || n == 0x20 || n == 0x85 || n == 0xa0 || n == 0x1680 || 0x2000 <= n <= 0x200a
    || n == 0x2028 || n == 0x2029 || n == 0x202f || n == 0x205f || n == 0x3000
  }

  predicate Blank(s: string) { forall c :: c in s ==> IsWhitespace(c) }

  datatype Scanner = Scanner(segments: seq<string>, segment: string, quoted: bool)

  // Parsing the remaining characters from a scanner state.
  function Scan(rest: string, st: Scanner): Result<seq<string>, KeyPathError> {
    if rest == "" then
      if st.quoted then Err(UnterminatedQuote)
      else if st.segment == "" then Err(EmptySegment)
      else Ok(st.segments + [st.segment])
    else if rest[0] == '"' && st.segment == "" && !st.quoted then Scan(rest[1..], st.(quoted := true))
    else if rest[0] == '"' && st.quoted then Scan(rest[1..], st.(quoted := false))
    else if rest[0] == '\\' && st.quoted then
      if |rest| == 1 then Err(UnterminatedEscape)
      else Scan(rest[2..], st.(segment := st.segment + [rest[1]]))
    else if rest[0] == '.' && !st.quoted then
      if st.segment == "" then Err(EmptySegment)
      else Scan(rest[1..], Scanner(st.segments + [st.segment], "", false))
    else if rest[0] == '"' then Err(InvalidQuote)
    else Scan(rest[1..], st.(segment := st.segment + [rest[0]]))
  }

  function Parsed(path: string): Result<seq<string>, KeyPathError> {
    if Blank(path) then Err(EmptyPath) else Scan(path, Scanner([], "", false))
  }

  // The character loop of `parse_key_path`.
  method ParseKeyPath(path: string) returns (r: Result<seq<string>, KeyPathError>)
    ensures r == Parsed(path)
  {
    if forall c | c in path :: IsWhitespace(c) { return Err(EmptyPath); }
    var segments: seq<string>, segment, quoted := [], "", false;
    var i := 0;
    while i < |path|
      invariant 0 <= i <= |path|
      invariant Scan(path, Scanner([], "", false)) == Scan(path[i..], Scanner(segments, segment, quoted))
    {
      var ch := path[i];
      assert path[i..][1..] == path[i + 1..];
      i := i + 1;
      if ch == '"' && segment == "" && !quoted {
        quoted := true;
      } else if ch == '"' && quoted {
        quoted := false;
      } else if ch == '\\' && quoted {
        if i == |path| { return Err(UnterminatedEscape); }
        assert path[i - 1..][2..] == path[i + 1..];
        segment := segment + [path[i]];
        i := i + 1;
      } else if ch == '.' && !quoted {
        if segment == "" { return Err(EmptySegment); }
        segments, segment := segments + [segment], "";
      } else if ch == '"' {
        return Err(InvalidQuote);
      } else {
        segment := segment + [ch];
      }
    }
    if quoted { return Err(UnterminatedQuote); }
    if segment == "" { return Err(EmptySegment); }
    return Ok(segments + [segment]);
  }

  predicate AllNonEmpty(segments: seq<string>) { forall i :: 0 <= i < |segments| ==> segments[i] != "" }

  lemma {:induction false} ScanNonEmpty(rest: string, st: Scanner)
    requires AllNonEmpty(st.segments)
    ensures Scan(rest, st).Ok? ==> Scan(rest, st).value != [] && AllNonEmpty(Scan(rest, st).value)
    decreases |rest|
  {
    if rest != "" {
      if rest[0] == '"' && st.segment == "" && !st.quoted {
        ScanNonEmpty(rest[1..], st.(quoted := true));
      } else if rest[0] == '"' && st.quoted {
        ScanNonEmpty(rest[1..], st.(quoted := false));
      } else if rest[0] == '\\' && st.quoted {
        if |rest| > 1 { ScanNonEmpty(rest[2..], st.(segment := st.segment + [rest[1]])); }
      } else if rest[0] == '.' && !st.quoted {
        if st.segment != "" { ScanNonEmpty(rest[1..], Scanner(st.segments + [st.segment], "", false)); }
      } else if rest[0] != '"' {
        ScanNonEmpty(rest[1..], st.(segment := st.segment + [rest[0]]));
      }
    }
  }

  /** Every successful parse is a non-empty list of non-empty segments. */
  lemma ParsedNonEmpty(path: string)
    ensures Parsed(path).Ok? ==> Parsed(path).value != [] && AllNonEmpty(Parsed(path).value)
  {
    ScanNonEmpty(path, Scanner([], "", false));
  }

  function Escape(s: string): string {
    if s == "" then ""
    else (if s[0] == '"' || s[0] == '\\' then ['\\', s[0]] else [s[0]]) + Escape(s[1..])
  }

  // A segment may be written bare when it holds neither dot nor quote.
  predicate Bare(s: string) { '.' !in s && '"' !in s }

  function Write(segment: string, quote: bool): string {
    if quote then "\"" + Escape(segment) + "\"" else segment
  }

  function Render(segments: seq<string>, quote: seq<bool>): string
    requires |segments| == |quote|
  {
    if segments == [] then ""
    else if |segments| == 1 then Write(segments[0], quote[0])
    else Write(segments[0], quote[0]) + ("." + Render(segments[1..], quote[1..]))
  }

  lemma {:induction false} ScanEscaped(s: string, rest: string, st: Scanner)
    requires st.quoted
    ensures Scan(Escape(s) + "\"" + rest, st) == Scan(rest, st.(segment := st.segment + s, quoted := false))
    decreases |s|
  {
    var text := Escape(s) + "\"" + rest;
    if s == "" {
      assert text[1..] == rest && st.segment + s == st.segment;
    } else {
      var next := st.(segment := st.segment + [s[0]]);
      var n := if s[0] == '"' || s[0] == '\\' then 2 else 1;
      assert text[n..] == Escape(s[1..]) + "\"" + rest;
      assert Scan(text, st) == Scan(text[n..], next);
      ScanEscaped(s[1..], rest, next);
      assert next.segment + s[1..] == st.segment + s;
    }
  }

  lemma {:induction false} ScanBare(s: string, rest: string, st: Scanner)
    requires !st.quoted && Bare(s)
    ensures Scan(s + rest, st) == Scan(rest, st.(segment := st.segment + s))
    decreases |s|
  {
    if s == "" {
      assert s + rest == rest && st.segment + s == st.segment;
    } else {
      var next := st.(segment := st.segment + [s[0]]);
      assert s[0] in s;
      assert (s + rest)[1..] == s[1..] + rest;
      ScanBare(s[1..], rest, next);
      assert next.segment + s[1..] == st.segment + s;
    }
  }

  lemma ScanWritten(segment: string, quote: bool, rest: string, done: seq<string>)
    requires !quote ==> Bare(segment)
    ensures Scan(Write(segment, quote) + rest, Scanner(done, "", false)) == Scan(rest, Scanner(done, segment, false))
  {
    assert "" + segment == segment;
    if quote {
      var text := Write(segment, quote) + rest;
      assert text[1..] == Escape(segment) + "\"" + rest;
      ScanEscaped(segment, rest, Scanner(done, "", true));
    } else {
      ScanBare(segment, rest, Scanner(done, "", false));
    }
  }

  lemma {:induction false} ScanRendered(segments: seq<string>, quote: seq<bool>, done: seq<string>)
    requires |segments| == |quote| && segments != [] && AllNonEmpty(segments)
    requires forall i :: 0 <= i < |segments| && !quote[i] ==> Bare(segments[i])
    ensures Scan(Render(segments, quote), Scanner(done, "", false)) == Ok(done + segments)
    decreases |segments|
  {
    var head := Write(segments[0], quote[0]);
    if |segments| == 1 {
      assert head + "" == head;
      ScanWritten(segments[0], quote[0], "", done);
      assert done + segments == done + [segments[0]];
    } else {
      var tail := Render(segments[1..], quote[1..]);
      ScanWritten(segments[0], quote[0], "." + tail, done);
      assert ("." + tail)[1..] == tail;
      ScanRendered(segments[1..], quote[1..], done + [segments[0]]);
      assert done + segments == (done + [segments[0]]) + segments[1..];
    }
  }

  /** Round trip: segments written quoted, or bare where that is possible, and joined with dots parse back;
      only an all-blank text, a single bare segment of white space, is refused. */
  lemma ParseRendered(segments: seq<string>, quote: seq<bool>)
    requires |segments| == |quote| && segments != [] && AllNonEmpty(segments)
    requires forall i :: 0 <= i < |segments| && !quote[i] ==> Bare(segments[i])
    ensures Parsed(Render(segments, quote)) ==
            if |segments| == 1 && !quote[0] && Blank(segments[0]) then Err(EmptyPath) else Ok(segments)
  {
    ScanRendered(segments, quote, []);
    assert [] + segments == segments;
    var text := Render(segments, quote);
    var head := Write(segments[0], quote[0]);
    if quote[0] {
      assert head[0] == '"' && text[0] == head[0];
      assert !IsWhitespace(text[0]) && text[0] in text;
    } else if |segments| > 1 {
      assert text[|head|] == '.' && !IsWhitespace('.');
      assert text[|head|] in text;
    }
  }

  // ---------- the accepted language ----------

  // What the inside of quotes stands for: a backslash gives the next character, and no quote stands unescaped.
  function Unescaped(text: string): Option<string> {
    if text == "" then Some("")
    else if text[0] == '"' || text == "\\" then None
    else
      var n := if text[0] == '\\' then 2 else 1;
      match Unescaped(text[n..])
      case None => None
      case Some(rest) => Some([text[n - 1]] + rest)
  }

  function Quoted(inside: string, after: string): string { "\"" + inside + "\"" + after }

  // A quoted text with a bare end.
  ghost predicate WritesQuoted(text: string, segment: string) {
    exists inside, after ::
      && text == Quoted(inside, after) && Bare(after)
      && Unescaped(inside).Some? && Unescaped(inside).value != "" && segment == Unescaped(inside).value + after
  }

  // The ways to write a segment: bare, or in quotes with a bare end, behind any number of empty quotes.
  ghost predicate Writes(text: string, segment: string)
    decreases |text|
  {
    segment != "" &&
    ((text == segment && Bare(text)) || WritesQuoted(text, segment) ||
     (|text| >= 2 && text[..2] == "\"\"" && Writes(text[2..], segment)))
  }

  // The segments are written one after the other with a dot between them, the first one up to `n`.
  ghost predicate Accepts(path: string, segments: seq<string>)
    decreases |segments|
  {
    segments != [] && exists n: nat :: AcceptsAt(path, segments, n)
  }

  ghost predicate AcceptsAt(path: string, segments: seq<string>, n: nat)
    requires segments != []
    decreases |segments|, 0
  {
    && n <= |path| && Writes(path[..n], segments[0])
    && if |segments| == 1 then n == |path|
       else n < |path| && path[n] == '.' && Accepts(path[n + 1..], segments[1..])
  }

  lemma {:induction false} ScanInside(inside: string, rest: string, st: Scanner)
    requires st.quoted && Unescaped(inside).Some?
    ensures Scan(inside + "\"" + rest, st) ==
            Scan(rest, st.(segment := st.segment + Unescaped(inside).value, quoted := false))
    decreases |inside|
  {
    var text := inside + "\"" + rest;
    if inside == "" {
      assert text[1..] == rest && st.segment + "" == st.segment;
    } else {
      var n := if inside[0] == '\\' then 2 else 1;
      var next := st.(segment := st.segment + [inside[n - 1]]);
      assert text[n..] == inside[n..] + "\"" + rest;
      ScanInside(inside[n..], rest, next);
      assert Scan(text, st) == Scan(text[n..], next);
      assert next.segment + Unescaped(inside[n..]).value == st.segment + Unescaped(inside).value;
    }
  }

  lemma ScanQuoted(inside: string, after: string, rest: string, done: seq<string>)
    requires Unescaped(inside).Some? && Bare(after)
    ensures Scan(Quoted(inside, after) + rest, Scanner(done, "", false)) ==
            Scan(rest, Scanner(done, Unescaped(inside).value + after, false))
  {
    var text, content := Quoted(inside, after) + rest, Unescaped(inside).value;
    assert text[0] == '"' && text[1..] == inside + "\"" + (after + rest);
    ScanInside(inside, after + rest, Scanner(done, "", true));
    assert "" + content == content;
    ScanBare(after, rest, Scanner(done, content, false));
  }

  lemma ScanEmptyQuotes(rest: string, done: seq<string>)
    requires |rest| >= 2 && rest[..2] == "\"\""
    ensures Scan(rest, Scanner(done, "", false)) == Scan(rest[2..], Scanner(done, "", false))
  {
    assert rest[0] == rest[..2][0] == '"' && rest[1] == rest[..2][1] == '"';
    assert rest[1..][1..] == rest[2..];
  }

  lemma {:induction false} ScanSegment(text: string, segment: string, rest: string, done: seq<string>)
    requires Writes(text, segment)
    ensures Scan(text + rest, Scanner(done, "", false)) == Scan(rest, Scanner(done, segment, false))
    decreases |text|
  {
    if text == segment && Bare(text) {
      ScanBare(text, rest, Scanner(done, "", false));
      assert "" + segment == segment;
    } else if WritesQuoted(text, segment) {
      var inside, after :|
        && text == Quoted(inside, after) && Bare(after)
        && Unescaped(inside).Some? && Unescaped(inside).value != "" && segment == Unescaped(inside).value + after;
      ScanQuoted(inside, after, rest, done);
    } else {
      assert (text + rest)[..2] == text[..2] && (text + rest)[2..] == text[2..] + rest;
      ScanEmptyQuotes(text + rest, done);
      ScanSegment(text[2..], segment, rest, done);
    }
  }

  lemma {:induction false} AcceptedIsScanned(path: string, segments: seq<string>, done: seq<string>)
    requires Accepts(path, segments)
    ensures Scan(path, Scanner(done, "", false)) == Ok(done + segments)
    decreases |segments|
  {
    var n: nat :| AcceptsAt(path, segments, n);
    assert path == path[..n] + path[n..];
    ScanSegment(path[..n], segments[0], path[n..], done);
    if |segments| == 1 {
      assert path[n..] == "" && done + segments == done + [segments[0]];
    } else {
      assert path[n..][1..] == path[n + 1..];
      AcceptedIsScanned(path[n + 1..], segments[1..], done + [segments[0]]);
      assert done + segments == (done + [segments[0]]) + segments[1..];
    }
  }

  // After a first character outside quotes a segment goes on bare up to a dot or the end.
  lemma {:induction false} BareRun(rest: string, done: seq<string>, segment: string) returns (n: nat)
    requires segment != "" && Scan(rest, Scanner(done, segment, false)).Ok?
    ensures n <= |rest| && Bare(rest[..n]) && (n < |rest| ==> rest[n] == '.')
    ensures Scan(rest, Scanner(done, segment, false)) == Scan(rest[n..], Scanner(done, segment + rest[..n], false))
    decreases |rest|
  {
    if rest == "" || rest[0] == '.' {
      n := 0;
      assert segment + rest[..0] == segment && rest[0..] == rest;
    } else {
      var m := BareRun(rest[1..], done, segment + [rest[0]]);
      n := m + 1;
      assert rest[..n] == [rest[0]] + rest[1..][..m] && rest[n..] == rest[1..][m..];
      assert segment + rest[..n] == (segment + [rest[0]]) + rest[1..][..m];
    }
  }

  // Inside quotes the text runs up to an unescaped quote.
  lemma {:induction false} QuotedRun(rest: string, done: seq<string>, segment: string) returns (n: nat)
    requires Scan(rest, Scanner(done, segment, true)).Ok?
    ensures n < |rest| && rest[n] == '"' && Unescaped(rest[..n]).Some?
    ensures Scan(rest, Scanner(done, segment, true)) ==
            Scan(rest[n + 1..], Scanner(done, segment + Unescaped(rest[..n]).value, false))
    decreases |rest|
  {
    if rest[0] == '"' {
      n := 0;
      assert rest[..0] == "" && segment + "" == segment;
    } else {
      var k := if rest[0] == '\\' then 2 else 1;
      var m := QuotedRun(rest[k..], done, segment + [rest[k - 1]]);
      n := m + k;
      assert rest[..n][k..] == rest[k..][..m] && rest[n + 1..] == rest[k..][m + 1..];
      assert rest[..n][k - 1] == rest[k - 1];
      var inner := Unescaped(rest[k..][..m]).value;
      assert Unescaped(rest[..n]) == Some([rest[k - 1]] + inner);
      assert segment + ([rest[k - 1]] + inner) == (segment + [rest[k - 1]]) + inner;
    }
  }

  lemma EmptyInside(inside: string)
    requires Unescaped(inside) == Some("")
    ensures inside == ""
  {
  }

  lemma QuotedSegment(rest: string, n: nat, k: nat, segment: string)
    requires n + 1 < |rest| && rest[0] == '"' && rest[n + 1] == '"' && n + 2 <= k <= |rest|
    requires Unescaped(rest[1..n + 1]).Some? && Unescaped(rest[1..n + 1]).value != "" && Bare(rest[n + 2..k])
    requires segment == Unescaped(rest[1..n + 1]).value + rest[n + 2..k]
    ensures Writes(rest[..k], segment)
  {
    assert rest[..k] == Quoted(rest[1..n + 1], rest[n + 2..k]);
    assert WritesQuoted(rest[..k], segment);
  }

  lemma BareSegmentRun(rest: string, done: seq<string>) returns (n: nat, segment: string)
    requires rest != "" && rest[0] != '"' && Scan(rest, Scanner(done, "", false)).Ok?
    ensures n <= |rest| && Writes(rest[..n], segment) && (n < |rest| ==> rest[n] == '.')
    ensures Scan(rest, Scanner(done, "", false)) == Scan(rest[n..], Scanner(done, segment, false))
  {
    assert "" + [rest[0]] == [rest[0]];
    var m := BareRun(rest[1..], done, [rest[0]]);
    n := m + 1;
    segment := rest[..n];
    assert rest[..n] == [rest[0]] + rest[1..][..m] && rest[n..] == rest[1..][m..];
  }

  lemma QuotedSegmentRun(rest: string, done: seq<string>, q: nat) returns (n: nat, segment: string)
    requires q + 1 < |rest| && rest[0] == '"' && rest[q + 1] == '"'
    requires Unescaped(rest[1..q + 1]).Some? && Unescaped(rest[1..q + 1]).value != ""
    requires Scan(rest[q + 2..], Scanner(done, Unescaped(rest[1..q + 1]).value, false)).Ok?
    ensures n <= |rest| && Writes(rest[..n], segment) && (n < |rest| ==> rest[n] == '.')
    ensures Scan(rest[q + 2..], Scanner(done, Unescaped(rest[1..q + 1]).value, false)) ==
            Scan(rest[n..], Scanner(done, segment, false))
  {
    var content := Unescaped(rest[1..q + 1]).value;
    var m := BareRun(rest[q + 2..], done, content);
    n := q + 2 + m;
    segment := content + rest[q + 2..n];
    assert rest[q + 2..][..m] == rest[q + 2..n] && rest[q + 2..][m..] == rest[n..];
    QuotedSegment(rest, q, n, segment);
  }

  // Where the quotes opened at once close, and what is scanned after them.
  lemma OpenedRun(rest: string, done: seq<string>) returns (q: nat)
    requires rest != "" && rest[0] == '"' && Scan(rest, Scanner(done, "", false)).Ok?
    ensures q + 1 < |rest| && rest[q + 1] == '"' && Unescaped(rest[1..q + 1]).Some?
    ensures Scan(rest, Scanner(done, "", false)) ==
            Scan(rest[q + 2..], Scanner(done, Unescaped(rest[1..q + 1]).value, false))
  {
    q := QuotedRun(rest[1..], done, "");
    assert rest[1..][..q] == rest[1..q + 1] && rest[1..][q + 1..] == rest[q + 2..];
    assert "" + Unescaped(rest[1..q + 1]).value == Unescaped(rest[1..q + 1]).value;
  }

  // A segment that was scanned was written in one of the ways.
  lemma {:induction false} SegmentRun(rest: string, done: seq<string>) returns (n: nat, segment: string)
    requires Scan(rest, Scanner(done, "", false)).Ok?
    ensures n <= |rest| && Writes(rest[..n], segment) && (n < |rest| ==> rest[n] == '.')
    ensures Scan(rest, Scanner(done, "", false)) == Scan(rest[n..], Scanner(done, segment, false))
    decreases |rest|
  {
    if rest[0] != '"' {
      n, segment := BareSegmentRun(rest, done);
    } else {
      var q := OpenedRun(rest, done);
      if Unescaped(rest[1..q + 1]).value != "" {
        n, segment := QuotedSegmentRun(rest, done, q);
      } else {
        EmptyInside(rest[1..q + 1]);
        var m;
        m, segment := SegmentRun(rest[2..], done);
        n := m + 2;
        EmptyQuotesBefore(rest, m, segment);
        assert rest[n..] == rest[2..][m..];
      }
    }
  }

  lemma EmptyQuotesBefore(rest: string, m: nat, segment: string)
    requires m + 2 <= |rest| && rest[0] == '"' && rest[1] == '"' && Writes(rest[2..][..m], segment)
    ensures Writes(rest[..m + 2], segment)
  {
    var text := rest[..m + 2];
    assert text[..2] == "\"\"" && text[2..] == rest[2..][..m];
  }

  lemma {:induction false} ScannedIsAccepted(path: string, done: seq<string>) returns (segments: seq<string>)
    requires Scan(path, Scanner(done, "", false)).Ok?
    ensures Accepts(path, segments) && Scan(path, Scanner(done, "", false)) == Ok(done + segments)
    decreases |path|
  {
    var n, segment := SegmentRun(path, done);
    if n == |path| {
      segments := [segment];
      assert AcceptsAt(path, segments, n);
    } else {
      assert path[n..][1..] == path[n + 1..];
      var rest := ScannedIsAccepted(path[n + 1..], done + [segment]);
      segments := [segment] + rest;
      assert segments[1..] == rest && AcceptsAt(path, segments, n);
      assert done + segments == (done + [segment]) + rest;
    }
  }

  /** The parser accepts exactly the texts that are not blank and write segments with dots between them, each bare, or
      in quotes with a bare end, behind any empty quotes; and it yields those segments. */
  lemma ParsedExactly(path: string, segments: seq<string>)
    ensures Parsed(path) == Ok(segments) <==> !Blank(path) && Accepts(path, segments)
  {
    if Accepts(path, segments) {
      AcceptedIsScanned(path, segments, []);
      assert [] + segments == segments;
    }
    if Parsed(path) == Ok(segments) {
      var found := ScannedIsAccepted(path, []);
      assert [] + found == found;
    }
  }

  // Each way to fail is told apart, after any bare beginning or within any quoted text.
  lemma EmptySegmentTold(a: string, b: string)
    requires Bare(a) && a != ""
    ensures Scan(a + ".", Scanner([], "", false)) == Err(EmptySegment)
    ensures Scan(a + (".." + b), Scanner([], "", false)) == Err(EmptySegment)
  {
    assert "" + a == a;
    ScanBare(a, ".", Scanner([], "", false));
    assert "."[1..] == "";
    ScanBare(a, ".." + b, Scanner([], "", false));
    assert (".." + b)[1..] == "." + b;
  }

  lemma InvalidQuoteTold(a: string, b: string)
    requires Bare(a) && a != ""
    ensures Scan(a + ("\"" + b), Scanner([], "", false)) == Err(InvalidQuote)
  {
    assert "" + a == a;
    ScanBare(a, "\"" + b, Scanner([], "", false));
  }

  lemma UnterminatedTold(a: string)
    requires '"' !in a && '\\' !in a
    ensures Scan("\"" + a, Scanner([], "", false)) == Err(UnterminatedQuote)
    ensures Scan("\"" + (a + "\\"), Scanner([], "", false)) == Err(UnterminatedEscape)
  {
    assert ("\"" + a)[1..] == a && ("\"" + (a + "\\"))[1..] == a + "\\";
    ScanUnclosed(a, Scanner([], "", true));
    ScanUnescaped(a, Scanner([], "", true));
  }

  lemma {:induction false} ScanUnescaped(a: string, st: Scanner)
    requires st.quoted && '"' !in a && '\\' !in a
    ensures Scan(a + "\\", st) == Err(UnterminatedEscape)
    decreases |a|
  {
    if a != "" {
      assert a[0] in a && (a + "\\")[1..] == a[1..] + "\\";
      ScanUnescaped(a[1..], st.(segment := st.segment + [a[0]]));
    }
  }

  lemma {:induction false} ScanUnclosed(a: string, st: Scanner)
    requires st.quoted && '"' !in a && '\\' !in a
    ensures Scan(a, st) == Err(UnterminatedQuote)
    decreases |a|
  {
    if a != "" {
      assert a[0] in a;
      ScanUnclosed(a[1..], st.(segment := st.segment + [a[0]]));
    }
  }
}
