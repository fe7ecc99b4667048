/**
 * The transcript viewer: the `m:ss` duration and timestamp formats, the
 * summary sections shown only when they have entries, and the toggle that
 * reveals the full transcript.
 */
module TranscriptViewer {
  import opened Wrappers
  import opened Text
  import Api

  // ---------------------------------------------------------------------
  // Durations
  // ---------------------------------------------------------------------

  /** JavaScript's `%` on integers: the remainder takes the sign of the
      dividend. */
  function JsRem(a: int, b: int): (r: int)
    requires b > 0
    ensures a >= 0 ==> r == a % b
    ensures -b < r < b
  {
    if a >= 0 then a % b else -((-a) % b)
  }

  /** `formatDuration(seconds)`: whole minutes, a colon, and the remaining
      seconds padded to two digits. `Math.floor(seconds / 60)` is Dafny's
      division, which rounds down for a positive divisor. */
  function FormatDuration(seconds: int): (t: string)
    ensures |t| >= 4
  {
    MinSec(seconds / 60, JsRem(seconds, 60))
  }

  /** The template both formats share: `${mins}:${secs.padStart(2, "0")}`. */
  function MinSec(minutes: int, secs: int): (t: string)
    ensures |t| >= 4
  {
    IntToString(minutes) + ":" + PadStart(IntToString(secs), 2, '0')
  }

  /** A number below a hundred has at most two digits. */
  lemma ShortNumber(n: nat)
    requires n < 100
    ensures |NatToString(n)| <= 2
  {
    if n >= 10 {
      assert NatToString(n) == NatToString(n / 10) + [DigitChar(n % 10)];
    }
  }

  /** The seconds field: always two digits, reading back as the seconds. */
  lemma SecondsField(secs: nat)
    requires secs < 60
    ensures var f := PadStart(IntToString(secs), 2, '0');
      |f| == 2 && IsDigit(f[0]) && IsDigit(f[1]) && DigitsValue(f) == secs
  {
    var d := NatToString(secs);
    ShortNumber(secs);
    NatToStringReadsBack(secs);
    var f := PadStart(d, 2, '0');
    if |d| == 1 {
      assert f == ['0'] + d;
      assert f[..1] == ['0'];
      assert DigitsValue(['0']) == DigitsValue([]) * 10 + DigitValue('0');
      assert d[..0] == [];
    } else {
      assert f == d;
    }
  }

  predicate AllDigits(s: string) {
    forall i :: 0 <= i < |s| ==> IsDigit(s[i])
  }

  /** Reads an `m:ss` text back as a number of seconds. */
  function ReadDuration(t: string): (r: Option<nat>)
    ensures r.Some? ==> |t| >= 4 && t[|t| - 3] == ':'
  {
    if |t| >= 4 && t[|t| - 3] == ':' && AllDigits(t[..|t| - 3]) && AllDigits(t[|t| - 2..])
    then Some(DigitsValue(t[..|t| - 3]) * 60 + DigitsValue(t[|t| - 2..]))
    else None
  }

  /** Minutes and a two-digit field around a colon read back as their
      total. */
  lemma ReadBack(m: string, f: string, minutes: nat, secs: nat)
    requires |m| >= 1 && AllDigits(m) && |f| == 2 && AllDigits(f)
    requires DigitsValue(m) == minutes && DigitsValue(f) == secs
    ensures ReadDuration(m + ":" + f) == Some(minutes * 60 + secs)
  {
    var t := m + ":" + f;
    assert t[..|t| - 3] == m;
    assert t[|t| - 2..] == f;
  }

  lemma DurationShape(n: nat)
    ensures FormatDuration(n) == MinSec(n / 60, n % 60)
  {
  }

  /** Minutes and seconds below sixty, written out, are the minutes, a
      colon and a two-digit field holding the seconds, and read back as
      their total. */
  lemma MinSecReadsBack(minutes: nat, secs: nat, total: nat) returns (f: string)
    requires secs < 60 && total == minutes * 60 + secs
    ensures MinSec(minutes, secs) == NatToString(minutes) + ":" + f
    ensures |f| == 2 && AllDigits(f) && DigitsValue(f) == secs
    ensures ReadDuration(MinSec(minutes, secs)) == Some(total)
  {
    var m := NatToString(minutes);
    f := PadStart(IntToString(secs), 2, '0');
    assert MinSec(minutes, secs) == m + ":" + f;
    SecondsField(secs);
    NatToStringReadsBack(minutes);
    ReadBack(m, f, minutes, secs);
  }

  lemma TailOf(m: string, f: string)
    requires |f| == 2
    ensures (m + ":" + f)[|m + ":" + f| - 2..] == f
  {
  }

  /** For a non-negative number of seconds, the text is the minutes, a
      colon and exactly two digits holding the seconds below sixty, and it
      reads back as the number it came from. */
  lemma DurationRoundTrip(seconds: nat)
    ensures var t := FormatDuration(seconds);
      && t == NatToString(seconds / 60) + ":" + t[|t| - 2..]
      && AllDigits(t[|t| - 2..]) && DigitsValue(t[|t| - 2..]) == seconds % 60
      && ReadDuration(t) == Some(seconds)
  {
    DurationShape(seconds);
    var f := MinSecReadsBack(seconds / 60, seconds % 60, seconds);
    TailOf(NatToString(seconds / 60), f);
  }

  /** Minutes do not roll over into hours: an hour reads `60:00`. */
  lemma HourIsSixtyMinutes()
    ensures FormatDuration(3600) == "60:00"
  {
    assert NatToString(60) == "60" by {
      assert NatToString(6) == "6";
    }
    assert IntToString(0) == "0";
    assert PadStart("0", 2, '0') == "00";
  }

  /** Rounding toward zero. */
  function Trunc(x: real): (k: int)
    ensures x >= 0.0 ==> k == x.Floor
  {
    if x >= 0.0 then x.Floor else -((-x).Floor)
  }

  /** JavaScript's `%` by sixty on a number that may have a fraction: what
      is left after taking out the whole sixties, rounding toward zero. */
  function JsRemSixty(x: real): (r: real)
    ensures x >= 0.0 ==> r == x - 60.0 * (x / 60.0).Floor as real
  {
    x - 60.0 * Trunc(x / 60.0) as real
  }

  /** `formatTime(seconds)` for a timestamp that may have a fraction: the
      remainder is rounded down after it is taken. */
  function FormatTime(seconds: real): (t: string)
    ensures |t| >= 4
  {
    MinSec((seconds / 60.0).Floor, JsRemSixty(seconds).Floor)
  }

  /** `Floor` is the one integer at most `x` and more than `x - 1`. */
  lemma FloorIs(x: real, k: int)
    requires k as real <= x < k as real + 1.0
    ensures x.Floor == k
  {
  }

  /** Dividing a whole number by sixty and rounding down is integer
      division. */
  lemma FloorSixtieth(n: int)
    ensures ((n as real) / 60.0).Floor == n / 60
  {
    var q := n / 60;
    assert n as real == 60.0 * (q as real) + ((n % 60) as real);
    FloorIs((n as real) / 60.0, q);
  }

  /** On a whole number the remainder is the integer one. */
  lemma RemOnIntegers(n: int)
    ensures JsRemSixty(n as real).Floor == JsRem(n, 60)
  {
    var x := n as real;
    if n >= 0 {
      FloorSixtieth(n);
      assert JsRemSixty(x) == (n - 60 * (n / 60)) as real;
    } else {
      FloorSixtieth(-n);
      assert -x / 60.0 == ((-n) as real) / 60.0;
      assert Trunc(x / 60.0) == -((-n) / 60);
      assert JsRemSixty(x) == (n + 60 * ((-n) / 60)) as real;
    }
  }

  /** On whole numbers of seconds the two formats agree. */
  lemma TimeAgreesOnIntegers(seconds: int)
    ensures FormatTime(seconds as real) == FormatDuration(seconds)
  {
    FloorSixtieth(seconds);
    RemOnIntegers(seconds);
    FormatTimeIs(seconds as real, seconds / 60, JsRem(seconds, 60));
  }

  lemma FormatTimeIs(x: real, minutes: int, secs: int)
    requires (x / 60.0).Floor == minutes && JsRemSixty(x).Floor == secs
    ensures FormatTime(x) == MinSec(minutes, secs)
  {
  }

  /** On a non-negative timestamp, `formatTime` drops the fraction of a
      second and formats what is left as a duration. */
  lemma TimeDropsFraction(seconds: real)
    requires seconds >= 0.0
    ensures FormatTime(seconds) == FormatDuration(seconds.Floor)
  {
    var n := seconds.Floor;
    var m := n / 60;
    assert (m as real) * 60.0 <= n as real && (n as real) + 1.0 <= ((m + 1) as real) * 60.0;
    FloorIs(seconds / 60.0, m);
    FloorIs(seconds - 60.0 * m as real, n - 60 * m);
    assert JsRemSixty(seconds) == seconds - 60.0 * m as real;
    assert n % 60 == n - 60 * m;
    FormatTimeIs(seconds, m, n % 60);
    DurationShape(n);
  }

  // ---------------------------------------------------------------------
  // The viewer
  // ---------------------------------------------------------------------

  datatype Sentence = Sentence(startTime: real, speakerName: string, text: string)

  datatype Transcript = Transcript(
    title: string,
    duration: int,
    actionItems: seq<string>,
    keywords: seq<string>,
    topics: seq<string>,
    sentences: seq<Sentence>,
    transcriptUrl: Option<string>)

  /** One line of the full transcript: its timestamp, speaker and text. */
  datatype Line = Line(time: string, speaker: string, text: string)

  /** What the viewer shows: the duration, the summary sections that have
      entries, the toggle's caption, the lines when they are revealed, and
      the external link when there is one. */
  datatype View = View(
    duration: string,
    actionItems: Option<seq<string>>,
    keywords: Option<seq<string>>,
    topics: Option<seq<string>>,
    toggleCaption: string,
    lines: Option<seq<Line>>,
    link: Option<string>)

  /** `{items.length > 0 && ...}`. */
  function Section(items: seq<string>): (r: Option<seq<string>>)
    ensures r.Some? <==> items != []
    ensures r.Some? ==> r.value == items
  {
    if |items| > 0 then Some(items) else None
  }

  function ShowCaption(lines: nat): string {
    "Show Full Transcript (" + NatToString(lines) + " lines)"
  }

  const HideCaption := "Hide Full Transcript"

  /** The viewer's one piece of state: whether the full transcript is
      revealed. */
  class Viewer {
    var showFull: bool

    constructor()
      ensures !showFull
    {
      showFull := false;
    }

    /** The toggle button. */
    method ToggleFull()
      modifies this
      ensures showFull == !old(showFull)
    {
      showFull := !showFull;
    }

    function Render(t: Transcript): (v: View)
      reads this
      ensures v.duration == FormatDuration(t.duration)
      ensures v.actionItems == Section(t.actionItems)
      ensures v.keywords == Section(t.keywords)
      ensures v.topics == Section(t.topics)
      ensures v.toggleCaption == (if showFull then HideCaption else ShowCaption(|t.sentences|))
      ensures v.lines.Some? <==> showFull
      ensures v.lines.Some? ==> |v.lines.value| == |t.sentences|
      ensures v.lines.Some? ==> forall i :: 0 <= i < |t.sentences| ==>
                v.lines.value[i] == Line(FormatTime(t.sentences[i].startTime), t.sentences[i].speakerName, t.sentences[i].text)
      ensures v.link.Some? <==> Api.Truthy(t.transcriptUrl)
    {
      View(
        FormatDuration(t.duration),
        Section(t.actionItems),
        Section(t.keywords),
        Section(t.topics),
        if showFull then HideCaption else ShowCaption(|t.sentences|),
        if showFull
        then Some(seq(|t.sentences|, i requires 0 <= i < |t.sentences| =>
               Line(FormatTime(t.sentences[i].startTime), t.sentences[i].speakerName, t.sentences[i].text)))
        else None,
        if Api.Truthy(t.transcriptUrl) then t.transcriptUrl else None)
    }
  }
}
