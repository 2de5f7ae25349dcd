/** The fixed-width column line of `_append_record` in the two oldest
    ingest lambdas: the timestamp and the correlation-id are each padded
    with spaces to their column width by `ljust`, followed by the value and
    a newline. */
module FixedWidth {
  import opened Text

  function FixedLine(timestamp: string, correlationId: string, value: string,
                     timestampWidth: nat, correlationWidth: nat): string
  {
    LJust(timestamp, timestampWidth) + LJust(correlationId, correlationWidth) + value + "\n"
  }

  function Max(a: nat, b: nat): nat
  {
    if a < b then b else a
  }

  lemma LJustShape(s: string, width: nat)
    ensures |LJust(s, width)| == Max(|s|, width)
    ensures LJust(s, width)[..|s|] == s
    ensures forall i :: |s| <= i < |LJust(s, width)| ==> LJust(s, width)[i] == ' '
  {
  }

  /** `ljust` never truncates: the line always starts with the whole
      timestamp, the padded correlation-id follows it, and the value starts
      after the wider of each field and its width. */
  lemma FixedLineNeverTruncates(timestamp: string, correlationId: string, value: string,
                                timestampWidth: nat, correlationWidth: nat)
    ensures var line := FixedLine(timestamp, correlationId, value, timestampWidth, correlationWidth);
      var at := Max(|timestamp|, timestampWidth) + Max(|correlationId|, correlationWidth);
      && |line| == at + |value| + 1
      && line[..|timestamp|] == timestamp
      && line[Max(|timestamp|, timestampWidth)..Max(|timestamp|, timestampWidth) + |correlationId|] == correlationId
      && line[at..at + |value|] == value
      && line[|line| - 1] == '\n'
  {
    var ts := LJust(timestamp, timestampWidth);
    var corr := LJust(correlationId, correlationWidth);
    LJustShape(timestamp, timestampWidth);
    LJustShape(correlationId, correlationWidth);
    var line := ts + corr + value + "\n";
    assert line[..|timestamp|] == ts[..|timestamp|];
    assert line[|ts|..|ts| + |correlationId|] == corr[..|correlationId|];
    assert line[|ts| + |corr|..|ts| + |corr| + |value|] == value;
  }

  /** Dropping trailing spaces undoes the padding of a field that does not
      itself end in a space. */
  lemma {:induction false} TrimPadding(s: string, n: nat)
    requires |s| > 0 ==> s[|s| - 1] != ' '
    ensures TrimRight(s + Spaces(n), {' '}) == s
    decreases n
  {
    if n > 0 {
      assert (s + Spaces(n))[..|s| + n - 1] == s + Spaces(n - 1);
      TrimPadding(s, n - 1);
    } else {
      assert s + Spaces(0) == s;
    }
  }

  /** With both fields within their widths the columns are fixed: the line
      is `timestampWidth + correlationWidth + |value| + 1` long, the value
      starts at column `timestampWidth + correlationWidth`, and each field
      reads back from its column by dropping the padding. */
  lemma FixedLineColumns(timestamp: string, correlationId: string, value: string,
                         timestampWidth: nat, correlationWidth: nat)
    requires |timestamp| <= timestampWidth && |correlationId| <= correlationWidth
    requires |timestamp| > 0 ==> timestamp[|timestamp| - 1] != ' '
    requires |correlationId| > 0 ==> correlationId[|correlationId| - 1] != ' '
    ensures var line := FixedLine(timestamp, correlationId, value, timestampWidth, correlationWidth);
      var at := timestampWidth + correlationWidth;
      && |line| == at + |value| + 1
      && TrimRight(line[..timestampWidth], {' '}) == timestamp
      && TrimRight(line[timestampWidth..at], {' '}) == correlationId
      && line[at..|line| - 1] == value
  {
    var ts := LJust(timestamp, timestampWidth);
    var corr := LJust(correlationId, correlationWidth);
    var line := ts + corr + value + "\n";
    assert ts == timestamp + Spaces(timestampWidth - |timestamp|);
    assert corr == correlationId + Spaces(correlationWidth - |correlationId|);
    TrimPadding(timestamp, timestampWidth - |timestamp|);
    TrimPadding(correlationId, correlationWidth - |correlationId|);
    assert line[..timestampWidth] == ts;
    assert line[timestampWidth..timestampWidth + correlationWidth] == corr;
    assert line[timestampWidth + correlationWidth..|line| - 1] == value;
  }
}
