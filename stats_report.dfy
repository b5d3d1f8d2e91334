/**
 * The tally report that both the broadcast and the vote handler put into the
 * poll message: a fixed heading, then one numbered line per
 * `(label, count)` entry of the backend's `/stats/` mapping, in the
 * mapping's iteration order, joined by newlines.
 */
module StatsReport {
  import opened Text

  /** The `/stats/` mapping as its entries in iteration order. */
  type Stats = seq<(string, int)>

  /** The heading that opens every report ("poll results", with a chart emoji). */
  const Preamble: string := "\U{1F4C8} Сўровнома бўйча натижалар:\n\n"

  /** The line `<strong>{i}. {label}:</strong>    {count}`. */
  function StatLine(i: nat, name: string, count: int): string {
    "<strong>" + NatText(i) + ". " + name + ":</strong>    " + IntText(count)
  }

  /** The report's lines: entry `i` (0-based) is numbered `i + 1`. */
  function StatLines(stats: Stats): seq<string> {
    seq(|stats|, i requires 0 <= i < |stats| => StatLine(i + 1, stats[i].0, stats[i].1))
  }

  /** The whole report text. */
  function Report(stats: Stats): string {
    Preamble + Join(StatLines(stats), '\n')
  }

  /**
   * Renders the report as the handlers do: a counter starting at 0 is
   * bumped once per entry (`update_counter`) and its new value numbers that
   * entry's line; the lines are then joined by newlines after the heading.
   */
  method RenderStats(stats: Stats) returns (text: string)
    ensures text == Report(stats)
  {
    var counter := 0;
    var lines: seq<string> := [];
    for k := 0 to |stats|
      invariant counter == k
      invariant |lines| == k
      invariant forall i :: 0 <= i < k ==> lines[i] == StatLine(i + 1, stats[i].0, stats[i].1)
    {
      counter := counter + 1;
      var (name, count) := stats[k];
      lines := lines + [StatLine(counter, name, count)];
    }
    assert lines == StatLines(stats);
    text := Preamble + Join(lines, '\n');
  }

  lemma NoNewlineInNumber(n: int)
    ensures '\n' !in IntText(n)
    ensures n >= 0 ==> '\n' !in NatText(n)
  {
  }

  lemma NoNewlineInLine(i: nat, name: string, count: int)
    requires '\n' !in name
    ensures '\n' !in StatLine(i, name, count)
  {
    NoNewlineInNumber(i);
    NoNewlineInNumber(count);
  }

  /**
   * Reading the report back: it starts with the heading, and when no label
   * contains a newline and there is at least one entry, the text after the
   * heading splits on newlines into exactly one line per entry, line `i`
   * (1-based) being `<strong>{i}. {label_i}:</strong>    {count_i}`.
   * With no entries the report is the heading alone.
   */
  lemma {:induction false} ReportLines(stats: Stats)
    requires forall i :: 0 <= i < |stats| ==> '\n' !in stats[i].0
    ensures Report(stats)[..|Preamble|] == Preamble
    ensures |stats| == 0 ==> Report(stats) == Preamble
    ensures |stats| > 0 ==>
      var lines := Split(Report(stats)[|Preamble|..], '\n');
      |lines| == |stats| &&
      forall i :: 0 <= i < |stats| ==> lines[i] == StatLine(i + 1, stats[i].0, stats[i].1)
  {
    var lines := StatLines(stats);
    assert Report(stats)[|Preamble|..] == Join(lines, '\n');
    if |stats| > 0 {
      forall i | 0 <= i < |lines|
        ensures '\n' !in lines[i]
      {
        NoNewlineInLine(i + 1, stats[i].0, stats[i].1);
      }
      SplitJoin(lines, '\n');
    }
  }

  /** The longest prefix of `s` made of decimal digits. */
  function LeadingDigits(s: string): (d: string)
    ensures |d| <= |s| && d == s[..|d|]
    ensures forall i :: 0 <= i < |d| ==> IsDigit(d[i])
  {
    if |s| > 0 && IsDigit(s[0]) then [s[0]] + LeadingDigits(s[1..]) else ""
  }

  lemma {:induction false} LeadingDigitsOf(digits: string, rest: string)
    requires forall i :: 0 <= i < |digits| ==> IsDigit(digits[i])
    requires |rest| > 0 && !IsDigit(rest[0])
    ensures LeadingDigits(digits + rest) == digits
    decreases |digits|
  {
    if |digits| > 0 {
      assert (digits + rest)[1..] == digits[1..] + rest;
      LeadingDigitsOf(digits[1..], rest);
    }
  }

  /** The number a report line starts with, read back from its text. */
  function LineNumber(line: string): nat {
    if |line| < 8 then 0 else ParseNat(LeadingDigits(line[8..]))
  }

  /** The number printed on a line is the counter value it was rendered with. */
  lemma LineNumberOf(i: nat, name: string, count: int)
    ensures LineNumber(StatLine(i, name, count)) == i
  {
    var digits := NatText(i);
    var rest := ". " + name + ":</strong>    " + IntText(count);
    assert StatLine(i, name, count) == "<strong>" + (digits + rest);
    assert ("<strong>" + (digits + rest))[8..] == digits + rest;
    LeadingDigitsOf(digits, rest);
    ParseNatText(i);
  }

  /** Numbering is consecutive from 1 in entry order: line `i` (0-based) reads back as number `i + 1`. */
  lemma ReportNumbering(stats: Stats)
    ensures forall i :: 0 <= i < |stats| ==> LineNumber(StatLines(stats)[i]) == i + 1
  {
    forall i | 0 <= i < |stats|
      ensures LineNumber(StatLines(stats)[i]) == i + 1
    {
      LineNumberOf(i + 1, stats[i].0, stats[i].1);
    }
  }
}
