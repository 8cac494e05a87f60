/** Values shared by every service: optional values, error chains, attachments,
    timestamps and a few string helpers. */
module Common {

  type Id = nat

  newtype Byte = x: int | 0 <= x < 256

  type Bytes = seq<Byte>

  datatype Option<T> = None | Some(value: T) {
    function GetOr(default: T): T {
      match this
      case Some(v) => v
      case None => default
    }
  }

  /** An error with its chain of context messages, outermost first, ending in
      the root message (the shape of an `anyhow::Error`). */
  datatype Error = Error(context: seq<string>, root: string)

  datatype Result<T> = Ok(value: T) | Err(error: Error)

  /** Outcome of an oracle step that yields no value. */
  datatype Outcome = Pass | Fault(message: string)

  function Fail(message: string): (e: Error)
    ensures Display(e) == message
  {
    Error([], message)
  }

  /** Wraps an error with one more context message, as `.context(..)` does. */
  function Context(e: Error, message: string): (r: Error)
    ensures Display(r) == message
    ensures r.root == e.root && |r.context| == |e.context| + 1 && r.context[1..] == e.context
    ensures Causes(r) == [Display(e)] + Causes(e)
  {
    Error([message] + e.context, e.root)
  }

  /** What `{}` prints: the outermost message only. */
  function Display(e: Error): string {
    if |e.context| > 0 then e.context[0] else e.root
  }

  /** The messages under the outermost one, outermost first. */
  function Causes(e: Error): seq<string> {
    if |e.context| > 0 then e.context[1..] + [e.root] else []
  }

  /** What `{:?}` prints when no backtrace was captured: the outermost
      message and, when there are causes, a blank line, "Caused by:" and
      every cause on a line of its own, outermost first, numbered from 0 when
      there are several. */
  function Debug(e: Error): (s: string)
    ensures |Causes(e)| == 0 ==> s == Display(e)
    ensures |Display(e)| <= |s| && s[..|Display(e)|] == Display(e)
    ensures |Causes(e)| > 0 ==>
      s == Display(e) + "\n\nCaused by:" + Concat(ChainLines(Causes(e), 0, |Causes(e)| > 1))
  {
    var causes := Causes(e);
    if |causes| == 0 then Display(e)
    else
      var lines := CauseLines(causes, 0, |causes| > 1);
      CauseLinesAreLines(causes, 0, |causes| > 1);
      PrefixKept(Display(e), "\n\nCaused by:", lines);
      Display(e) + "\n\nCaused by:" + lines
  }

  lemma PrefixKept(a: string, b: string, c: string)
    ensures (a + b + c)[..|a|] == a
  {
  }

  /** Every cause of the chain shows up in `{:?}` on its own line, behind its
      position in the chain when there are several. */
  lemma {:induction false} DebugShowsEveryCause(e: Error, k: nat)
    requires k < |Causes(e)|
    ensures Contains(Debug(e), CauseLine(Causes(e)[k], k, |Causes(e)| > 1))
  {
    var c := Causes(e);
    var lines := ChainLines(c, 0, |c| > 1);
    var head := Display(e) + "\n\nCaused by:";
    var before, after := Concat(lines[..k]), Concat(lines[k + 1..]);
    assert Debug(e) == head + Concat(lines);
    ConcatSplit(lines, k);
    Regroup(head, before, lines[k], after);
    ContainsMiddle(head + before, lines[k], after);
  }

  lemma Regroup(a: string, b: string, c: string, d: string)
    ensures a + (b + c + d) == (a + b) + c + d
  {
  }

  lemma ContainsMiddle(pre: string, mid: string, post: string)
    ensures Contains(pre + mid + post, mid)
  {
    var s := pre + mid + post;
    assert s[|pre|..|pre| + |mid|] == mid;
    ContainsAt(s, mid, |pre|);
  }

  /** The strings one after another. */
  function Concat(xs: seq<string>): string {
    if xs == [] then "" else xs[0] + Concat(xs[1..])
  }

  /** Any element splits the concatenation into what comes before, the
      element, and what comes after. */
  lemma {:induction false} ConcatSplit(xs: seq<string>, k: nat)
    requires k < |xs|
    ensures Concat(xs) == Concat(xs[..k]) + xs[k] + Concat(xs[k + 1..])
  {
    if k == 0 {
      assert xs[..0] == [] && xs[1..] == xs[k + 1..];
    } else {
      var tail := xs[1..];
      ConcatSplit(tail, k - 1);
      assert tail[..k - 1] == xs[..k][1..];
      assert tail[k - 1] == xs[k] && tail[k..] == xs[k + 1..];
      assert xs[..k][0] == xs[0];
      assert Concat(xs[..k]) == xs[0] + Concat(tail[..k - 1]);
    }
  }

  /** One cause as `{:?}` writes it: a line break, the cause's number (or
      four spaces when it is the only cause), then its text with every
      further line indented to where the text starts. */
  function CauseLine(cause: string, n: nat, numbered: bool): string {
    if numbered then "\n" + CauseNumber(n) + Indent(cause, "       ")
    else "\n    " + Indent(cause, "    ")
  }

  /** The cause's own text reads back from what follows its prefix. */
  lemma CauseLineReadsBack(cause: string, n: nat, numbered: bool)
    ensures numbered ==> var p := "\n" + CauseNumber(n);
      p <= CauseLine(cause, n, numbered) && Outdent(CauseLine(cause, n, numbered)[|p|..], "       ") == cause
    ensures !numbered ==> "\n    " <= CauseLine(cause, n, numbered) && Outdent(CauseLine(cause, n, numbered)[5..], "    ") == cause
  {
    var pad := if numbered then "       " else "    ";
    var prefix := if numbered then "\n" + CauseNumber(n) else "\n    ";
    IndentRoundTrip(cause, pad);
    assert CauseLine(cause, n, numbered) == prefix + Indent(cause, pad);
    assert CauseLine(cause, n, numbered)[|prefix|..] == Indent(cause, pad);
  }

  /** The line of every cause, the first counted as `n`. */
  function ChainLines(causes: seq<string>, n: nat, numbered: bool): (lines: seq<string>)
    ensures |lines| == |causes|
    ensures forall k :: 0 <= k < |causes| ==> lines[k] == CauseLine(causes[k], n + k, numbered)
  {
    seq(|causes|, k requires 0 <= k < |causes| => CauseLine(causes[k], n + k, numbered))
  }

  /** The lines `{:?}` writes under "Caused by:", the first cause counted as
      `n`: the loop over the chain, one `CauseLine` per cause in order. */
  function CauseLines(causes: seq<string>, n: nat, numbered: bool): (s: string)
    ensures causes == [] <==> s == ""
    ensures causes != [] ==> ("\n" + if numbered then CauseNumber(n) else "    ") <= s
  {
    if causes == [] then ""
    else CauseLine(causes[0], n, numbered) + CauseLines(causes[1..], n + 1, numbered)
  }

  /** The loop writes exactly one line per cause, in chain order. */
  lemma {:induction false} CauseLinesAreLines(causes: seq<string>, n: nat, numbered: bool)
    ensures CauseLines(causes, n, numbered) == Concat(ChainLines(causes, n, numbered))
    decreases |causes|
  {
    if causes != [] {
      CauseLinesAreLines(causes[1..], n + 1, numbered);
      assert ChainLines(causes, n, numbered)[1..] == ChainLines(causes[1..], n + 1, numbered);
    }
  }

  /** `{: >5}: ` of a cause's number: its digits right-aligned in five
      columns, then a colon and a space. */
  function CauseNumber(n: nat): (s: string)
    ensures |s| == (if |Decimal(n)| < 5 then 5 else |Decimal(n)|) + 2
    ensures s[|s| - 2..] == ": "
    ensures forall k :: 0 <= k < |s| - 2 - |Decimal(n)| ==> s[k] == ' '
    ensures AllDigits(s[|s| - 2 - |Decimal(n)|..|s| - 2]) && Value(s[|s| - 2 - |Decimal(n)|..|s| - 2]) == n
  {
    var digits := Decimal(n);
    var s := Spaces(5 - |digits|) + digits + ": ";
    assert s[|s| - 2 - |digits|..|s| - 2] == digits;
    DecimalRoundTrip(n);
    s
  }

  /** `k` spaces (none when `k` is not positive). */
  function Spaces(k: int): (s: string)
    ensures |s| == if k < 0 then 0 else k
    ensures forall i :: 0 <= i < |s| ==> s[i] == ' '
  {
    if k <= 0 then "" else Spaces(k - 1) + " "
  }

  /** `s` with `pad` written after every line break: how anyhow lines up the
      further lines of a multi-line cause. */
  function Indent(s: string, pad: string): (r: string)
    ensures (forall k :: 0 <= k < |s| ==> s[k] != '\n') ==> r == s
    ensures |s| <= |r|
  {
    if s == [] then ""
    else (if s[0] == '\n' then "\n" + pad else [s[0]]) + Indent(s[1..], pad)
  }

  /** Drops `pad` after every line break that is followed by it. */
  function Outdent(r: string, pad: string): string
    decreases |r|
  {
    if r == [] then ""
    else if r[0] == '\n' && pad <= r[1..] then "\n" + Outdent(r[1 + |pad|..], pad)
    else [r[0]] + Outdent(r[1..], pad)
  }

  /** Indenting loses nothing: the cause's own text can be read back. */
  lemma {:induction false} IndentRoundTrip(s: string, pad: string)
    ensures Outdent(Indent(s, pad), pad) == s
  {
    if s != [] {
      var rest := Indent(s[1..], pad);
      IndentRoundTrip(s[1..], pad);
      if s[0] == '\n' {
        OutdentBreak(rest, pad);
      } else {
        OutdentOther(s[0], rest, pad);
      }
      assert [s[0]] + s[1..] == s;
    }
  }

  lemma OutdentBreak(rest: string, pad: string)
    ensures Outdent("\n" + pad + rest, pad) == "\n" + Outdent(rest, pad)
  {
    var r := "\n" + pad + rest;
    assert r[1..] == pad + rest;
    assert r[1 + |pad|..] == rest;
  }

  lemma OutdentOther(c: char, rest: string, pad: string)
    requires c != '\n'
    ensures Outdent([c] + rest, pad) == [c] + Outdent(rest, pad)
  {
    assert ([c] + rest)[1..] == rest;
  }

  /** A chain with one cause shows it behind four spaces, unnumbered, and a
      line break inside it is followed by four spaces too. */
  lemma DebugOneCause(e: Error)
    requires |Causes(e)| == 1
    ensures Debug(e) == Display(e) + "\n\nCaused by:\n    " + Indent(Causes(e)[0], "    ")
  {
    var c := Causes(e);
    assert c[1..] == [];
  }

  /** A chain with two causes numbers them from 0, each behind its number
      in five columns (`top`, then `0: mid`, then `1: root`). */
  lemma DebugNumbersCauses(e: Error)
    requires |Causes(e)| == 2
    requires forall k :: 0 <= k < |Causes(e)[0]| ==> Causes(e)[0][k] != '\n'
    requires forall k :: 0 <= k < |Causes(e)[1]| ==> Causes(e)[1][k] != '\n'
    ensures Debug(e) == Display(e) + "\n\nCaused by:" + ("\n    0: " + Causes(e)[0]) + ("\n    1: " + Causes(e)[1])
  {
    var c := Causes(e);
    var lines := ChainLines(c, 0, true);
    var first, second := "\n    0: " + c[0], "\n    1: " + c[1];
    assert lines[0] == first by {
      SmallNumberedLine(c[0], 0);
      assert "\n    " + [DigitChar(0)] + ": " == "\n    0: ";
    }
    assert lines[1] == second by {
      SmallNumberedLine(c[1], 1);
      assert "\n    " + [DigitChar(1)] + ": " == "\n    1: ";
    }
    ConcatTwo(lines);
    assert Debug(e) == Display(e) + "\n\nCaused by:" + Concat(lines);
    AppendPair(Display(e) + "\n\nCaused by:", first, second);
  }

  lemma AppendPair(a: string, b: string, c: string)
    ensures a + (b + c) == a + b + c
  {
  }

  lemma ConcatTwo(xs: seq<string>)
    requires |xs| == 2
    ensures Concat(xs) == xs[0] + xs[1]
  {
    var tail := xs[1..];
    assert |tail| == 1 && tail[0] == xs[1] && tail[1..] == [];
    assert Concat(tail) == xs[1] + Concat(tail[1..]);
  }

  /** A single-line cause numbered below ten. */
  lemma SmallNumberedLine(c: string, n: nat)
    requires n < 10
    requires forall k :: 0 <= k < |c| ==> c[k] != '\n'
    ensures CauseLine(c, n, true) == "\n    " + [DigitChar(n)] + ": " + c
  {
    SmallCauseNumber(n);
    IndentNoBreak(c, "       ");
  }

  /** Numbers below ten take four spaces of padding. */
  lemma SmallCauseNumber(n: nat)
    requires n < 10
    ensures CauseNumber(n) == "    " + [DigitChar(n)] + ": "
  {
    assert Decimal(n) == [DigitChar(n)];
    assert Spaces(4) == "    " by {
      assert Spaces(0) == "";
    }
  }

  lemma IndentNoBreak(s: string, pad: string)
    requires forall k :: 0 <= k < |s| ==> s[k] != '\n'
    ensures Indent(s, pad) == s
  {
  }


  /** An HTTP response: the status code and the fields of its JSON body
      (`success`, and `operation_id`, `message` and `error` when present). */
  datatype Response = Response(code: nat, success: bool, operationId: Option<Id>, message: Option<string>,
                               error: Option<string>)

  /** The error every store access returns while the store is unavailable. */
  const StoreDown := "database unavailable"

  datatype Attachment = Attachment(filename: string, contentType: string, data: Bytes)

  /** `Rfc3339` is what `Utc::now().to_rfc3339()` writes; `SqlTimestamp` is what
      SQLite's CURRENT_TIMESTAMP writes ("YYYY-MM-DD HH:MM:SS", no offset). */
  datatype Timestamp = Rfc3339(instant: nat) | SqlTimestamp(instant: nat)

  /** chrono's `DateTime<Utc>` parser needs an offset, so it reads back only
      the RFC 3339 form. */
  function ParseInstant(t: Timestamp): (r: Result<nat>)
    ensures r.Ok? <==> t.Rfc3339?
    ensures r.Ok? ==> r.value == t.instant
  {
    match t
    case Rfc3339(i) => Ok(i)
    case SqlTimestamp(_) => Err(Fail("premature end of input"))
  }

  // ---------------------------------------------------------------------
  // Decimal numbers, as `{}` prints an unsigned integer
  // ---------------------------------------------------------------------

  predicate IsDigit(c: char) {
    '0' <= c <= '9'
  }

  predicate AllDigits(s: string) {
    forall k :: 0 <= k < |s| ==> IsDigit(s[k])
  }

  function DigitChar(d: nat): (c: char)
    requires d < 10
    ensures IsDigit(c)
  {
    ['0', '1', '2', '3', '4', '5', '6', '7', '8', '9'][d]
  }

  function DigitValue(c: char): (d: nat)
    requires IsDigit(c)
    ensures d < 10
  {
    (c as int - '0' as int) as nat
  }

  lemma DigitRoundTrip(d: nat)
    requires d < 10
    ensures DigitValue(DigitChar(d)) == d
  {
  }

  /** `{}` of an unsigned integer: its decimal digits, no leading zeros. */
  function Decimal(n: nat): (s: string)
    ensures |s| > 0 && AllDigits(s)
  {
    if n < 10 then [DigitChar(n)] else Decimal(n / 10) + [DigitChar(n % 10)]
  }

  /** The number a string of digits denotes. */
  function Value(s: string): nat
    requires AllDigits(s)
  {
    if s == [] then 0 else Value(s[..|s| - 1]) * 10 + DigitValue(s[|s| - 1])
  }

  lemma {:induction false} DecimalRoundTrip(n: nat)
    ensures Value(Decimal(n)) == n
  {
    DigitRoundTrip(n % 10);
    if n >= 10 {
      DecimalRoundTrip(n / 10);
      var s := Decimal(n);
      assert s[..|s| - 1] == Decimal(n / 10);
    }
  }

  function Join(xs: seq<string>, sep: string): string {
    if |xs| == 0 then ""
    else if |xs| == 1 then xs[0]
    else xs[0] + sep + Join(xs[1..], sep)
  }

  /** `sub` occurs somewhere in `s`. */
  predicate Contains(s: string, sub: string)
    decreases |s|
  {
    (|sub| <= |s| && s[..|sub|] == sub) || (|s| > 0 && Contains(s[1..], sub))
  }

  /** An occurrence at a known position is an occurrence. */
  lemma {:induction false} ContainsAt(s: string, sub: string, i: nat)
    requires i + |sub| <= |s| && s[i..i + |sub|] == sub
    ensures Contains(s, sub)
  {
    if i > 0 {
      assert s[1..][i - 1..i - 1 + |sub|] == s[i..i + |sub|];
      ContainsAt(s[1..], sub, i - 1);
    }
  }
}
