/** JavaScript runtime behaviour that the application code relies on:
    optional values, thrown values, the whitespace class of `\s` and `trim()`,
    `split(/\s+/)`, `Array.prototype.join` and the decimal form of numbers. */
module Js {

  datatype Option<+T> = None | Some(value: T)

  datatype Result<+R, +E> = Success(value: R) | Failure(error: E)

  /** What a `catch` clause receives: an `Error` (or subclass) with its message, or any other value. */
  datatype Thrown = ErrorObject(message: string) | NonError

  /** `err instanceof Error ? err.message : fallback` */
  function MessageOr(t: Thrown, fallback: string): string
  {
    match t
    case ErrorObject(m) => m
    case NonError => fallback
  }

  /** A JavaScript string is truthy exactly when it is not empty. */
  predicate TruthyString(s: Option<string>)
  {
    s.Some? && s.value != ""
  }

  // ---------------------------------------------------------------------------
  // Whitespace and trimming

  /** The characters matched by `\s` and removed by `String.prototype.trim`
      (WhiteSpace and LineTerminator of ECMAScript). */
  predicate IsSpace(c: char)
  {
    c == ' ' || c == '\t' || c == '\n' || c == '\r' || c == '\U{000B}' || c == '\U{000C}'
    || c == '\U{00A0}' || c == '\U{1680}' || ('\U{2000}' <= c <= '\U{200A}')
    || c == '\U{2028}' || c == '\U{2029}' || c == '\U{202F}' || c == '\U{205F}'
    || c == '\U{3000}' || c == '\U{FEFF}'
  }

  predicate AllSpace(s: string)
  {
    forall i :: 0 <= i < |s| ==> IsSpace(s[i])
  }

  predicate NoSpace(s: string)
  {
    forall i :: 0 <= i < |s| ==> !IsSpace(s[i])
  }

  /** Drops the leading whitespace; `LeadingSpacesSplit` says what it drops. */
  function TrimStart(s: string): (r: string)
    ensures |r| <= |s|
    ensures r != [] ==> !IsSpace(r[0])
  {
    if s != [] && IsSpace(s[0]) then TrimStart(s[1..]) else s
  }

  /** Drops the trailing whitespace. */
  function TrimEnd(s: string): (r: string)
    ensures |r| <= |s| && r == s[..|r|]
    ensures r != [] ==> !IsSpace(r[|r| - 1])
    ensures AllSpace(s[|r|..])
  {
    if s != [] && IsSpace(s[|s| - 1]) then TrimEnd(s[..|s| - 1]) else s
  }

  /** `String.prototype.trim` */
  function Trim(s: string): (r: string)
    ensures r != [] ==> !IsSpace(r[0]) && !IsSpace(r[|r| - 1])
    ensures r == [] <==> AllSpace(s)
  {
    TrimBlank(s);
    TrimEnd(TrimStart(s))
  }

  /** The whitespace at the front of `s`, which `TrimStart` drops. */
  function LeadingSpaces(s: string): string
  {
    if s != [] && IsSpace(s[0]) then [s[0]] + LeadingSpaces(s[1..]) else []
  }

  /** Putting a character in front of a concatenation. */
  lemma ConsConcat(c: char, a: string, b: string, t: string)
    requires a + b == t
    ensures ([c] + a) + b == [c] + t
  {
  }

  /** A non-empty text is its first character followed by the rest. */
  lemma ConsTail(s: string)
    requires s != []
    ensures [s[0]] + s[1..] == s
  {
  }

  /** A text is its leading whitespace followed by the rest. */
  lemma {:induction false} LeadingSpacesSplit(s: string)
    ensures LeadingSpaces(s) + TrimStart(s) == s
  {
    if s != [] && IsSpace(s[0]) {
      var t := s[1..];
      LeadingSpacesSplit(t);
      ConsConcat(s[0], LeadingSpaces(t), TrimStart(t), t);
      ConsTail(s);
    }
  }

  /** The leading whitespace is whitespace, and there is some when the text starts with it. */
  lemma {:induction false} LeadingSpacesRun(s: string)
    ensures AllSpace(LeadingSpaces(s))
    ensures s != [] && IsSpace(s[0]) ==> LeadingSpaces(s) != []
  {
    if s != [] && IsSpace(s[0]) {
      LeadingSpacesRun(s[1..]);
    }
  }

  lemma TrimBlank(s: string)
    ensures TrimEnd(TrimStart(s)) == [] <==> AllSpace(s)
  {
    var t := TrimStart(s);
    var r := TrimEnd(t);
    var lead := LeadingSpaces(s);
    LeadingSpacesSplit(s);
    LeadingSpacesRun(s);
    if r == [] {
      assert AllSpace(t) by { assert t[|r|..] == t; }
      assert t == [];
      assert s == lead;
    } else {
      assert t[0] == r[0];
      assert s[|lead|] == t[0];
    }
  }

  // ---------------------------------------------------------------------------
  // split(/\s+/)

  /** `split(/\s+/)` on `s`, where `current` is the piece read so far. */
  function SplitFrom(s: string, current: string): (r: seq<string>)
    ensures |r| >= 1
    decreases |s|
  {
    if s == [] then [current]
    else if IsSpace(s[0]) then [current] + SplitFrom(TrimStart(s[1..]), "")
    else SplitFrom(s[1..], current + [s[0]])
  }

  /** `s.split(/\s+/)`: the pieces between the maximal runs of whitespace.
      A leading or trailing run yields an empty first or last piece, and the
      empty string yields `[""]`. */
  function SplitWhitespace(s: string): seq<string>
  {
    SplitFrom(s, "")
  }

  /** The characters of `s` that are not whitespace, in order. */
  function NonSpace(s: string): (r: string)
  {
    if s == [] then [] else (if IsSpace(s[0]) then [] else [s[0]]) + NonSpace(s[1..])
  }

  function Concat(parts: seq<string>): string
  {
    if parts == [] then [] else parts[0] + Concat(parts[1..])
  }

  lemma {:induction false} NonSpaceOfSpaces(s: string)
    requires AllSpace(s)
    ensures NonSpace(s) == []
  {
    if s != [] { NonSpaceOfSpaces(s[1..]); }
  }

  lemma {:induction false} SplitFromPieces(s: string, current: string)
    requires NoSpace(current)
    ensures |SplitFrom(s, current)| >= 1
    ensures forall k :: 0 <= k < |SplitFrom(s, current)| ==> NoSpace(SplitFrom(s, current)[k])
    decreases |s|
  {
    if s == [] {
    } else if IsSpace(s[0]) {
      SplitFromPieces(TrimStart(s[1..]), "");
      assert SplitFrom(s, current) == [current] + SplitFrom(TrimStart(s[1..]), "");
    } else {
      var next := current + [s[0]];
      assert NoSpace(next) by {
        assert forall i :: 0 <= i < |current| ==> next[i] == current[i];
      }
      SplitFromPieces(s[1..], next);
    }
  }

  /** Dropping leading whitespace drops no non-whitespace character. */
  lemma NonSpaceSkip(t: string)
    ensures NonSpace(TrimStart(t)) == NonSpace(t)
  {
    var rest := TrimStart(t);
    var skipped := LeadingSpaces(t);
    LeadingSpacesSplit(t);
    LeadingSpacesRun(t);
    NonSpaceOfSpaces(skipped);
    NonSpaceAppend(skipped, rest);
  }

  lemma {:induction false} SplitFromConcat(s: string, current: string)
    ensures Concat(SplitFrom(s, current)) == current + NonSpace(s)
    decreases |s|, 1
  {
    if s == [] {
      assert Concat([current]) == current + Concat([]);
    } else if IsSpace(s[0]) {
      SplitFromConcatAtSpace(s, current);
    } else {
      SplitFromConcatAtWord(s, current);
    }
  }

  lemma {:induction false} SplitFromConcatAtSpace(s: string, current: string)
    requires s != [] && IsSpace(s[0])
    ensures Concat(SplitFrom(s, current)) == current + NonSpace(s)
    decreases |s|, 0
  {
    var rest := TrimStart(s[1..]);
    var pieces := SplitFrom(rest, "");
    assert SplitFrom(s, current) == [current] + pieces;
    assert ([current] + pieces)[1..] == pieces;
    SplitFromConcat(rest, "");
    NonSpaceSkip(s[1..]);
    assert NonSpace(s) == NonSpace(s[1..]);
  }

  lemma {:induction false} SplitFromConcatAtWord(s: string, current: string)
    requires s != [] && !IsSpace(s[0])
    ensures Concat(SplitFrom(s, current)) == current + NonSpace(s)
    decreases |s|, 0
  {
    var next := current + [s[0]];
    assert SplitFrom(s, current) == SplitFrom(s[1..], next);
    SplitFromConcat(s[1..], next);
    assert NonSpace(s) == [s[0]] + NonSpace(s[1..]);
    assert next + NonSpace(s[1..]) == current + ([s[0]] + NonSpace(s[1..]));
  }

  lemma {:induction false} NonSpaceAppend(a: string, b: string)
    ensures NonSpace(a + b) == NonSpace(a) + NonSpace(b)
  {
    if a != [] {
      assert (a + b)[1..] == a[1..] + b;
      NonSpaceAppend(a[1..], b);
    } else {
      assert a + b == b;
    }
  }

  /** `split(/\s+/)` always yields at least one piece; no piece holds
      whitespace; and the pieces, concatenated, are exactly the
      non-whitespace characters of the input, in order. */
  lemma SplitWhitespaceShape(s: string)
    ensures |SplitWhitespace(s)| >= 1
    ensures forall k :: 0 <= k < |SplitWhitespace(s)| ==> NoSpace(SplitWhitespace(s)[k])
    ensures Concat(SplitWhitespace(s)) == NonSpace(s)
  {
    SplitFromPieces(s, "");
    SplitFromConcat(s, "");
  }

  /** The maximal runs of whitespace in `s`, in order: the separators
      `split(/\s+/)` cuts at. */
  function Separators(s: string): seq<string>
    decreases |s|
  {
    if s == [] then []
    else if IsSpace(s[0]) then [LeadingSpaces(s)] + Separators(TrimStart(s[1..]))
    else Separators(s[1..])
  }

  /** Every separator is a non-empty run of whitespace. */
  lemma {:induction false} SeparatorsAreRuns(s: string)
    ensures forall k :: 0 <= k < |Separators(s)| ==> Separators(s)[k] != [] && AllSpace(Separators(s)[k])
    decreases |s|
  {
    if s == [] {
    } else if IsSpace(s[0]) {
      var rest := TrimStart(s[1..]);
      LeadingSpacesRun(s);
      SeparatorsAreRuns(rest);
      var seps := Separators(rest);
      assert Separators(s) == [LeadingSpaces(s)] + seps;
      forall k | 0 < k < |Separators(s)|
        ensures Separators(s)[k] == seps[k - 1]
      {
      }
    } else {
      SeparatorsAreRuns(s[1..]);
    }
  }

  /** The pieces with the separators put back between them. */
  function Interleave(pieces: seq<string>, seps: seq<string>): string
    requires |pieces| == |seps| + 1
    decreases |seps|
  {
    if seps == [] then pieces[0] else pieces[0] + seps[0] + Interleave(pieces[1..], seps[1..])
  }

  lemma {:induction false} SplitFromInterleave(s: string, current: string)
    ensures |SplitFrom(s, current)| == |Separators(s)| + 1
    ensures Interleave(SplitFrom(s, current), Separators(s)) == current + s
    decreases |s|, 1
  {
    if s == [] {
    } else if IsSpace(s[0]) {
      SplitFromInterleaveAtSpace(s, current);
    } else {
      SplitFromInterleaveAtWord(s, current);
    }
  }

  lemma InterleaveCons(first: string, pieces: seq<string>, sep: string, seps: seq<string>)
    requires |pieces| == |seps| + 1
    ensures Interleave([first] + pieces, [sep] + seps) == first + sep + Interleave(pieces, seps)
  {
    assert ([first] + pieces)[1..] == pieces && ([sep] + seps)[1..] == seps;
  }

  lemma {:induction false} SplitFromInterleaveAtSpace(s: string, current: string)
    requires s != [] && IsSpace(s[0])
    ensures |SplitFrom(s, current)| == |Separators(s)| + 1
    ensures Interleave(SplitFrom(s, current), Separators(s)) == current + s
    decreases |s|, 0
  {
    var rest := TrimStart(s[1..]);
    var run := LeadingSpaces(s);
    var tail := SplitFrom(rest, "");
    var seps := Separators(rest);
    SplitFromInterleave(rest, "");
    calc {
      Interleave(SplitFrom(s, current), Separators(s));
      Interleave([current] + tail, [run] + seps);
      { InterleaveCons(current, tail, run, seps); }
      current + run + Interleave(tail, seps);
      current + run + ("" + rest);
      current + (run + rest);
      { assert TrimStart(s) == rest; LeadingSpacesSplit(s); }
      current + s;
    }
  }

  lemma {:induction false} SplitFromInterleaveAtWord(s: string, current: string)
    requires s != [] && !IsSpace(s[0])
    ensures |SplitFrom(s, current)| == |Separators(s)| + 1
    ensures Interleave(SplitFrom(s, current), Separators(s)) == current + s
    decreases |s|, 0
  {
    var next := current + [s[0]];
    SplitFromInterleave(s[1..], next);
    assert SplitFrom(s, current) == SplitFrom(s[1..], next);
    assert Separators(s) == Separators(s[1..]);
    assert current + s == next + s[1..] by {
      assert s == [s[0]] + s[1..];
    }
  }

  /** The first piece extends the piece read so far, by at least the next
      character when that is not whitespace. */
  lemma {:induction false} SplitFromFirst(s: string, current: string)
    ensures |SplitFrom(s, current)[0]| >= |current| + (if s != [] && !IsSpace(s[0]) then 1 else 0)
    decreases |s|
  {
    if s != [] && !IsSpace(s[0]) {
      SplitFromFirst(s[1..], current + [s[0]]);
    }
  }

  /** Only the first and the last piece can be empty. */
  lemma {:induction false} SplitFromInterior(s: string, current: string)
    ensures forall k :: 0 < k < |SplitFrom(s, current)| - 1 ==> SplitFrom(s, current)[k] != []
    decreases |s|
  {
    if s == [] {
    } else if IsSpace(s[0]) {
      var rest := TrimStart(s[1..]);
      var tail := SplitFrom(rest, "");
      SplitFromInterior(rest, "");
      SplitFromFirst(rest, "");
      assert SplitFrom(s, current) == [current] + tail;
      assert rest == [] ==> |tail| == 1;
      forall k | 0 < k < |SplitFrom(s, current)| - 1
        ensures SplitFrom(s, current)[k] != []
      {
        assert SplitFrom(s, current)[k] == tail[k - 1];
      }
    } else {
      SplitFromInterior(s[1..], current + [s[0]]);
    }
  }

  /** A text whose leading whitespace is all of it after the first
      character ends in whitespace. */
  lemma AllRunEndsInSpace(s: string)
    requires s != [] && IsSpace(s[0]) && TrimStart(s[1..]) == []
    ensures IsSpace(s[|s| - 1])
  {
    if |s| > 1 {
      var t := s[1..];
      LeadingSpacesSplit(t);
      LeadingSpacesRun(t);
      assert LeadingSpaces(t) == t;
      LastOfTail(s);
    }
  }

  /** A non-empty result of `TrimStart` ends where its input ends. */
  lemma TrimStartLast(s: string)
    requires TrimStart(s) != []
    ensures TrimStart(s)[|TrimStart(s)| - 1] == s[|s| - 1]
  {
    LeadingSpacesSplit(s);
    LastOfConcat(LeadingSpaces(s), TrimStart(s));
  }

  /** The last character of a concatenation with a non-empty end. */
  lemma LastOfConcat(a: string, b: string)
    requires b != []
    ensures (a + b)[|a + b| - 1] == b[|b| - 1]
  {
  }

  /** The last element of a sequence with one more element in front. */
  lemma LastOfCons(a: string, t: seq<string>)
    requires t != []
    ensures ([a] + t)[|[a] + t| - 1] == t[|t| - 1]
  {
  }

  /** Dropping the first character keeps the last one. */
  lemma LastOfTail(s: string)
    requires |s| > 1
    ensures s[1..][|s| - 2] == s[|s| - 1]
  {
  }

  /** The last piece is empty exactly when the text ends in whitespace. */
  lemma {:induction false} SplitFromLast(s: string, current: string)
    requires s != []
    ensures var r := SplitFrom(s, current); r[|r| - 1] == [] <==> IsSpace(s[|s| - 1])
    decreases |s|, 1
  {
    if IsSpace(s[0]) {
      SplitFromLastAtSpace(s, current);
    } else {
      SplitFromLastAtWord(s, current);
    }
  }

  lemma {:induction false} SplitFromLastAtSpace(s: string, current: string)
    requires s != [] && IsSpace(s[0])
    ensures var r := SplitFrom(s, current); r[|r| - 1] == [] <==> IsSpace(s[|s| - 1])
    decreases |s|, 0
  {
    var rest := TrimStart(s[1..]);
    var tail := SplitFrom(rest, "");
    LastOfCons(current, tail);
    if rest == [] {
      AllRunEndsInSpace(s);
    } else {
      SplitFromLast(rest, "");
      TrimStartLast(s[1..]);
      LastOfTail(s);
    }
  }

  lemma {:induction false} SplitFromLastAtWord(s: string, current: string)
    requires s != [] && !IsSpace(s[0])
    ensures var r := SplitFrom(s, current); r[|r| - 1] == [] <==> IsSpace(s[|s| - 1])
    decreases |s|, 0
  {
    if |s| > 1 {
      SplitFromLast(s[1..], current + [s[0]]);
      LastOfTail(s);
    }
  }

  /** Where `split(/\s+/)` cuts: putting the maximal whitespace runs back
      between the pieces gives the text again, and every piece but the
      first and the last is non-empty. With the pieces free of whitespace
      (`SplitWhitespaceShape`) and `SplitWhitespaceEnds`, this fixes the
      pieces. */
  lemma SplitWhitespaceCuts(s: string)
    ensures |SplitWhitespace(s)| == |Separators(s)| + 1
    ensures Interleave(SplitWhitespace(s), Separators(s)) == s
    ensures forall k :: 0 < k < |SplitWhitespace(s)| - 1 ==> SplitWhitespace(s)[k] != []
  {
    SplitFromInterleave(s, "");
    SplitFromInterior(s, "");
  }

  /** The first piece is empty exactly when the text is empty or starts
      with whitespace, the last exactly when it is empty or ends with
      whitespace, and the empty text gives `[""]`. */
  lemma SplitWhitespaceEnds(s: string)
    ensures SplitWhitespace(s)[0] == [] <==> s == [] || IsSpace(s[0])
    ensures SplitWhitespace(s)[|SplitWhitespace(s)| - 1] == [] <==> s == [] || IsSpace(s[|s| - 1])
    ensures s == [] ==> SplitWhitespace(s) == [[]]
  {
    SplitFromFirst(s, "");
    if s != [] {
      SplitFromLast(s, "");
    }
  }

  // ---------------------------------------------------------------------------
  // Array.prototype.join

  /** `parts.join(sep)`; `[].join(sep)` is the empty string. */
  function Join(parts: seq<string>, sep: string): (r: string)
  {
    if |parts| == 0 then ""
    else if |parts| == 1 then parts[0]
    else parts[0] + sep + Join(parts[1..], sep)
  }

  // ---------------------------------------------------------------------------
  // Decimal representation of numbers (`n.toString()`, template literals)

  predicate IsDigit(c: char)
  {
    '0' <= c <= '9'
  }

  predicate AllDigits(s: string)
  {
    forall i :: 0 <= i < |s| ==> IsDigit(s[i])
  }

  function DigitChar(d: nat): (c: char)
    requires d < 10
    ensures IsDigit(c) && c as int - '0' as int == d
  {
    ('0' as int + d) as char
  }

  /** The decimal form of a natural number, as `String(n)` writes it. */
  function NatToDecimal(n: nat): (r: string)
    ensures |r| >= 1 && AllDigits(r)
    ensures r[0] == '0' ==> n == 0
    decreases n
  {
    if n < 10 then [DigitChar(n)] else NatToDecimal(n / 10) + [DigitChar(n % 10)]
  }

  /** The decimal form of an integer, with a leading `-` when negative. */
  function IntToDecimal(i: int): (r: string)
    ensures |r| >= 1
    ensures i >= 0 ==> r == NatToDecimal(i)
    ensures i < 0 ==> r[0] == '-' && r[1..] == NatToDecimal(-i)
  {
    if i < 0 then "-" + NatToDecimal(-i) else NatToDecimal(i)
  }

  /** Reads a string of digits back as a number. */
  function DecimalValue(s: string): nat
    requires AllDigits(s)
  {
    if s == [] then 0 else DecimalValue(s[..|s| - 1]) * 10 + (s[|s| - 1] as int - '0' as int)
  }

  /** Reading the decimal form back gives the number. */
  lemma {:induction false} DecimalRoundTrip(n: nat)
    ensures DecimalValue(NatToDecimal(n)) == n
    decreases n
  {
    if n >= 10 {
      DecimalRoundTrip(n / 10);
      var r := NatToDecimal(n);
      assert r[..|r| - 1] == NatToDecimal(n / 10);
    }
  }
}
