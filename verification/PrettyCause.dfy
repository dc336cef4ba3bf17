// The printed list of an error's causes.
module PrettyCause {
  import opened Definitions

  /** An error with what it displays as, and the error it was caused by. */
  datatype Error = Error(message: string, source: Option<Error>)

  const OVERLOAD: u16 := 9999

  function SaturatingAdd(a: u16, b: u16): u16 {
    if a + b <= 0xFFFF then a + b else 0xFFFF
  }

  /** The messages of all sources, nearest first; the error itself is not its own cause. */
  function Causes(e: Error): seq<string>
    decreases e
  {
    match e.source
    case None => []
    case Some(cause) => [cause.message] + Causes(cause)
  }

  function Digit(d: nat): char
    requires d < 10
  {
    ['0', '1', '2', '3', '4', '5', '6', '7', '8', '9'][d]
  }

  function Decimal(n: nat): string {
    if n < 10 then [Digit(n)] else Decimal(n / 10) + [Digit(n % 10)]
  }

  /** Right-aligned in a field of five. */
  function Padded(s: string): string {
    if |s| >= 5 then s else seq(5 - |s|, _ => ' ') + s
  }

  /** How the i-th cause is labelled. */
  function Label(i: nat): string {
    Padded(if i <= OVERLOAD then Decimal(i) else ">" + Decimal(OVERLOAD))
  }

  function Line(tag: string, message: string): string {
    "\n" + tag + ": " + message + "."
  }

  /** The numbered list of these causes, the first of them labelled i. */
  function Listed(causes: seq<string>, i: nat): string {
    if |causes| == 0 then "" else Line(Label(i), causes[0]) + Listed(causes[1..], i + 1)
  }

  const FIRST: nat := 0

  const HEADING: string := "\n\nCaused by:"

  /** What is to be printed: nothing, one line, or a numbered list. */
  function Expected(causes: seq<string>): string {
    if |causes| == 0 then ""
    else if |causes| == 1 then HEADING + " " + causes[0] + "."
    else HEADING + Listed(causes, FIRST)
  }

  function Length(e: Error): nat
    decreases e
  {
    match e.source
    case None => 0
    case Some(cause) => 1 + Length(cause)
  }

  /** A cause and all that caused it. */
  function From(cause: Error): seq<string> {
    [cause.message] + Causes(cause)
  }

  /** Two loops, one that counts and one for the causes past the last number. */
  method Fmt(e: Error) returns (f: string)
    ensures f == Expected(Causes(e))
  {
    hide Decimal, Padded, Listed, Line, Causes, From, Expected;
    ShortLists(e);
    f := "";
    if e.source.None? {
      return;
    }
    var cause := e.source.value;
    f := f + HEADING;
    if cause.source.None? {
      f := f + " ";
      f := f + cause.message;
      f := f + ".";
      return;
    }
    var anotherCause := cause.source.value;
    var number: u16 := 0;
    ghost var whole := f + Listed(From(cause), 0);
    AppendCause(f, cause, 0);
    f := PrintCause(f, cause, Decimal(number));
    ghost var i := 0;
    while true
      invariant number == i <= OVERLOAD
      invariant f + Listed(From(anotherCause), i + 1) == whole
      decreases Length(anotherCause)
    {
      if number == OVERLOAD {
        break;
      }
      number := SaturatingAdd(number, 1);
      i := i + 1;
      AppendCause(f, anotherCause, i);
      f := PrintCause(f, anotherCause, Decimal(number));
      match anotherCause.source {
        case Some(oneMoreCause) =>
          anotherCause := oneMoreCause;
        case None =>
          return;
      }
    }
    while true
      invariant i >= OVERLOAD
      invariant f + Listed(From(anotherCause), i + 1) == whole
      decreases Length(anotherCause)
    {
      i := i + 1;
      AppendCause(f, anotherCause, i);
      f := PrintCause(f, anotherCause, ">" + Decimal(OVERLOAD));
      match anotherCause.source {
        case Some(oneMoreCause) =>
          anotherCause := oneMoreCause;
        case None =>
          return;
      }
    }
  }

  lemma ShortLists(e: Error)
    ensures match e.source
            case None => Expected(Causes(e)) == ""
            case Some(cause) =>
              if cause.source.None? then Expected(Causes(e)) == HEADING + " " + cause.message + "."
              else Expected(Causes(e)) == HEADING + Listed(From(cause), 0)
  {
    hide Listed;
  }

  lemma AppendCause(f: string, cause: Error, i: nat)
    ensures var line := Line(Label(i), cause.message);
            f + Listed(From(cause), i)
            == if cause.source.Some? then (f + line) + Listed(From(cause.source.value), i + 1) else f + line
  {
    hide Line, Label;
    AppendLine(f, From(cause), i);
    assert From(cause)[1..] == Causes(cause);
  }

  method PrintCause(before: string, cause: Error, number: string) returns (f: string)
    ensures f == before + Line(Padded(number), cause.message)
  {
    f := before + "\n";
    f := f + Padded(number);
    f := f + ": ";
    f := f + cause.message;
    f := f + ".";
  }

  lemma AppendLine(f: string, causes: seq<string>, i: nat)
    requires |causes| > 0
    ensures f + Listed(causes, i) == (f + Line(Label(i), causes[0])) + Listed(causes[1..], i + 1)
  {
  }

  // --- What the list shows ---

  /** The text of the causes before the i-th one. */
  lemma {:induction false} ListedSplits(causes: seq<string>, i: nat, k: nat)
    requires k <= |causes|
    ensures Listed(causes, i) == Listed(causes[..k], i) + Listed(causes[k..], i + k)
  {
    hide Line, Label;
    if k > 0 {
      ListedSplits(causes[1..], i + 1, k - 1);
      assert causes[..k][1..] == causes[1..][..k - 1];
      assert causes[1..][k - 1..] == causes[k..];
    } else {
      assert causes[..0] == [] && causes[0..] == causes;
    }
  }

  lemma ListedAt(causes: seq<string>, i: nat, k: nat)
    requires k < |causes|
    ensures Listed(causes, i)
         == Listed(causes[..k], i) + Line(Label(i + k), causes[k]) + Listed(causes[k + 1..], i + k + 1)
  {
    hide Label, Line;
    ListedSplits(causes, i, k);
    assert causes[k..][1..] == causes[k + 1..];
    AppendLine(Listed(causes[..k], i), causes[k..], i + k);
  }

  /** Every cause has its own line, in order: label i up to 9999, then ">9999" whatever the length of the chain. */
  lemma EveryCauseInOrder(causes: seq<string>, k: nat)
    requires k < |causes| && |causes| > 1
    ensures Expected(causes)
         == "\n\nCaused by:" + (Listed(causes[..k], FIRST) + ("\n" + Label(k) + ": " + causes[k] + ".") + Listed(causes[k + 1..], k + 1))
    ensures if k <= 9999 then Parse(Label(k)) == k else Label(k) == ">9999"
  {
    if k > 9999 {
      OverloadLabel(k);
    } else {
      DecimalRoundTrip(k);
      BlankDigits(Decimal(k));
    }
    LineIs(Label(k), causes[k]);
    hide Label, Line, Listed, Parse;
    ListedAt(causes, FIRST, k);
  }

  lemma LineIs(tag: string, message: string)
    ensures Line(tag, message) == "\n" + tag + ": " + message + "."
  {
  }

  /** An error without a cause prints nothing, one with a single cause prints it on the line of the heading. */
  lemma ShortCauses(e: Error)
    ensures e.source.None? ==> Expected(Causes(e)) == ""
    ensures e.source.Some? && e.source.value.source.None? ==>
              Expected(Causes(e)) == "\n\nCaused by: " + e.source.value.message + "."
  {
    if e.source.Some? && e.source.value.source.None? {
      assert Causes(e) == [e.source.value.message];
      assert "\n\nCaused by:" + " " == "\n\nCaused by: ";
    }
  }

  /** The error this many sources further. */
  function SourceAt(e: Error, k: nat): Option<Error> {
    if k == 0 then Some(e)
    else match e.source case None => None case Some(cause) => SourceAt(cause, k - 1)
  }

  /** The causes are the messages of all sources, nearest first. */
  lemma {:induction false} CausesAre(e: Error, k: nat)
    ensures k < |Causes(e)| <==> SourceAt(e, k + 1).Some?
    ensures k < |Causes(e)| ==> Causes(e)[k] == SourceAt(e, k + 1).value.message
    decreases e
  {
    if e.source.Some? && k > 0 {
      CausesAre(e.source.value, k - 1);
    }
  }

  lemma OverloadLabel(i: nat)
    requires i > 9999
    ensures Label(i) == ">9999"
  {
    OverloadDigits();
  }

  lemma OverloadDigits()
    ensures Decimal(9999) == "9999"
  {
    assert Decimal(9999) == Decimal(999) + ['9'] == Decimal(99) + ['9'] + ['9'] == Decimal(9) + ['9'] + ['9'] + ['9'];
  }

  // --- Labels are readable ---

  function DigitValue(c: char): nat {
    if '0' <= c <= '9' then (c - '0') as nat else 0
  }

  function Parse(s: string): nat {
    if |s| == 0 then 0 else 10 * Parse(s[..|s| - 1]) + DigitValue(s[|s| - 1])
  }

  lemma DigitRoundTrip(d: nat)
    requires d < 10
    ensures DigitValue(Digit(d)) == d
  {
  }

  lemma {:induction false} DecimalRoundTrip(n: nat)
    ensures Parse(Decimal(n)) == n && |Decimal(n)| > 0
  {
    if n < 10 {
      DigitRoundTrip(n);
      assert Parse([Digit(n)]) == 10 * Parse([]) + DigitValue(Digit(n));
    } else {
      DecimalRoundTrip(n / 10);
      DigitRoundTrip(n % 10);
      assert (Decimal(n / 10) + [Digit(n % 10)])[..|Decimal(n / 10)|] == Decimal(n / 10);
    }
  }

  lemma {:induction false} DecimalWidth(n: nat, k: nat)
    requires n < Power10(k) && k > 0
    ensures |Decimal(n)| <= k
  {
    if n >= 10 {
      DecimalWidth(n / 10, k - 1);
    }
  }

  function Power10(k: nat): nat {
    if k == 0 then 1 else 10 * Power10(k - 1)
  }

  /** All labels fill the field exactly: up to 9999 with blanks and then the number, without a leading zero. */
  lemma LabelsAlign(i: nat)
    ensures |Label(i)| == 5
    ensures i <= 9999 ==> exists blanks :: 0 < blanks < 5 && IsNumberAfter(Label(i), blanks)
  {
    OverloadDigits();
    if i <= 9999 {
      assert Power10(4) == 10000;
      DecimalWidth(i, 4);
      NoLeadingZero(i);
      var blanks := 5 - |Decimal(i)|;
      assert Label(i)[blanks..] == Decimal(i);
      assert IsNumberAfter(Label(i), blanks);
    }
  }

  /** So many blanks, and then digits, the first of which is not 0 unless it is the only one. */
  ghost predicate IsNumberAfter(s: string, blanks: nat) {
    && blanks < |s|
    && (forall j :: 0 <= j < blanks ==> s[j] == ' ')
    && (forall j :: blanks <= j < |s| ==> '0' <= s[j] <= '9')
    && (s[blanks] == '0' ==> |s| == blanks + 1)
  }

  lemma {:induction false} NoLeadingZero(n: nat)
    ensures |Decimal(n)| > 0 && forall j :: 0 <= j < |Decimal(n)| ==> '0' <= Decimal(n)[j] <= '9'
    ensures Decimal(n)[0] == '0' ==> n == 0 && |Decimal(n)| == 1
  {
    if n >= 10 {
      NoLeadingZero(n / 10);
    }
  }

  lemma LabelsDiffer(i: nat, j: nat)
    requires i < j <= 9999
    ensures Label(i) != Label(j)
  {
    assert Power10(4) == 10000;
    DecimalWidth(i, 4);
    DecimalWidth(j, 4);
    DecimalRoundTrip(i);
    DecimalRoundTrip(j);
    BlankDigits(Decimal(i));
    BlankDigits(Decimal(j));
    assert Parse(Label(i)) == i && Parse(Label(j)) == j;
  }

  /** Blanks before a number do not change how it reads. */
  lemma {:induction false} LeadingBlanks(n: nat, s: string)
    ensures Parse(seq(n, _ => ' ') + s) == Parse(s)
    decreases |s|, n
  {
    var blanks := seq(n, _ => ' ');
    if |s| > 0 {
      LeadingBlanks(n, s[..|s| - 1]);
      assert (blanks + s)[..|blanks + s| - 1] == blanks + s[..|s| - 1];
    } else if n > 0 {
      assert blanks + s == blanks;
      assert blanks[..n - 1] == seq(n - 1, _ => ' ');
      LeadingBlanks(n - 1, "");
      assert seq(n - 1, _ => ' ') + "" == seq(n - 1, _ => ' ');
    } else {
      assert blanks + s == s;
    }
  }

  lemma BlankDigits(s: string)
    ensures Parse(Padded(s)) == Parse(s)
  {
    if |s| < 5 {
      LeadingBlanks(5 - |s|, s);
    }
  }
}
