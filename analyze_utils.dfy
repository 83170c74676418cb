/**
 * The helpers of analyze/utils.py that compute: splitting a webhook message
 * into chunks, the screening progress counters, and reading a list of stock
 * codes from a text file.
 */
module AnalyzeUtils {
  import opened Common

  // ---- Message chunks ----

  const MaxMessageLength: int := 2000

  /** `[message[i:i+n] for i in range(0, len(message), n)]`. */
  function Chunks(message: string, n: nat): (cs: seq<string>)
    requires n > 0
    ensures forall i :: 0 <= i < |cs| ==> 0 < |cs[i]| <= n
    ensures forall i :: 0 <= i < |cs| - 1 ==> |cs[i]| == n
    ensures message == [] <==> cs == []
    decreases |message|
  {
    if message == [] then []
    else if |message| <= n then [message]
    else [message[..n]] + Chunks(message[n..], n)
  }

  function Concat(cs: seq<string>): string
  {
    if cs == [] then [] else cs[0] + Concat(cs[1..])
  }

  /** Sending the chunks one after another delivers the whole message, in order. */
  lemma {:induction false} ChunksConcatenate(message: string, n: nat)
    requires n > 0
    ensures Concat(Chunks(message, n)) == message
    decreases |message|
  {
    if |message| > n {
      ChunksConcatenate(message[n..], n);
      assert Chunks(message, n)[1..] == Chunks(message[n..], n);
      assert message[..n] + message[n..] == message;
    }
  }

  // ---- Progress counters ----

  datatype ProgressSummary = ProgressSummary(analyzed: nat, errors: nat, filterPassed: nat, filterFailed: nat,
                                             totalProcessed: nat, elapsedSeconds: real,
                                             successRate: real, filterPassRate: real)

  /** `EnhancedProgressTracker`: the counters of a screening run; the periodic progress line is not modelled. */
  class ProgressTracker {
    const totalCount: int
    var analyzed: nat
    var errors: nat
    var filterPassed: nat
    var filterFailed: nat

    /** Every successful analysis either passed or failed the absolute filters. */
    predicate Valid()
      reads this
    {
      analyzed == filterPassed + filterFailed
    }

    constructor (totalCount: int)
      ensures Valid() && this.totalCount == totalCount
      ensures analyzed == 0 && errors == 0 && filterPassed == 0 && filterFailed == 0
    {
      this.totalCount := totalCount;
      analyzed, errors, filterPassed, filterFailed := 0, 0, 0, 0;
    }

    /** `update(success, filter_passed)`: a success counts as analysed and as exactly one of passed/failed; a failure as an error. */
    method Update(success: bool, passedFilter: bool)
      requires Valid()
      modifies this
      ensures Valid()
      ensures success ==> analyzed == old(analyzed) + 1 && errors == old(errors)
                          && filterPassed == old(filterPassed) + (if passedFilter then 1 else 0)
                          && filterFailed == old(filterFailed) + (if passedFilter then 0 else 1)
      ensures !success ==> analyzed == old(analyzed) && errors == old(errors) + 1
                           && filterPassed == old(filterPassed) && filterFailed == old(filterFailed)
      ensures analyzed + errors == old(analyzed + errors) + 1
    {
      if success {
        analyzed := analyzed + 1;
        if passedFilter {
          filterPassed := filterPassed + 1;
        } else {
          filterFailed := filterFailed + 1;
        }
      } else {
        errors := errors + 1;
      }
    }

    /** `get_summary()`, with the elapsed time as an input: both rates are percentages, 0 when nothing was counted. */
    function Summary(elapsedSeconds: real): (s: ProgressSummary)
      requires Valid()
      reads this
      ensures s.totalProcessed == s.analyzed + s.errors && s.analyzed == s.filterPassed + s.filterFailed
      ensures s.totalProcessed == 0 ==> s.successRate == 0.0
      ensures s.analyzed == 0 ==> s.filterPassRate == 0.0
      ensures 0.0 <= s.successRate <= 100.0 && 0.0 <= s.filterPassRate <= 100.0
      ensures s.errors == 0 && s.analyzed > 0 ==> s.successRate == 100.0
      ensures s.analyzed == analyzed && s.errors == errors && s.filterPassed == filterPassed
              && s.filterFailed == filterFailed && s.elapsedSeconds == elapsedSeconds
      ensures s.totalProcessed > 0 ==> s.successRate * s.totalProcessed as real == 100.0 * s.analyzed as real
      ensures s.analyzed > 0 ==> s.filterPassRate * s.analyzed as real == 100.0 * s.filterPassed as real
    {
      var total := analyzed + errors;
      var filtered := filterPassed + filterFailed;
      ProgressSummary(analyzed, errors, filterPassed, filterFailed, total, elapsedSeconds,
                      Rate(analyzed, total), Rate(filterPassed, filtered))
    }
  }

  /** `part / whole * 100`, and 0 for an empty whole. */
  function Rate(part: nat, whole: nat): (r: real)
    requires part <= whole
    ensures 0.0 <= r <= 100.0
    ensures whole == 0 ==> r == 0.0
    ensures whole > 0 && part == whole ==> r == 100.0
    ensures whole > 0 ==> r * whole as real == 100.0 * part as real
  {
    if whole == 0 then 0.0
    else
      var q := part as real / whole as real;
      FractionAtMostOne(part as real, whole as real);
      assert q * (whole as real) == part as real;
      assert q * 100.0 * whole as real == 100.0 * (q * whole as real);
      q * 100.0
  }

  // ---- Stock codes from a text file ----

  /** The leading run of non-space characters. */
  function Word(s: string): (w: string)
    ensures |w| <= |s| && w == s[..|w|] && forall i :: 0 <= i < |w| ==> !IsSpace(w[i])
    ensures |w| < |s| ==> IsSpace(s[|w|])
  {
    if s == [] || IsSpace(s[0]) then [] else [s[0]] + Word(s[1..])
  }

  /** Python's `str.split()` with no argument: the maximal runs of non-space characters. */
  function Words(s: string): (ws: seq<string>)
    ensures forall i :: 0 <= i < |ws| ==> |ws[i]| > 0
    decreases |s|
  {
    if s == [] then []
    else if IsSpace(s[0]) then Words(s[1..])
    else
      var w := Word(s);
      [w] + Words(s[|w|..])
  }

  function Zeros(n: nat): (z: string)
    ensures |z| == n && forall i :: 0 <= i < n ==> z[i] == '0'
  {
    if n == 0 then [] else Zeros(n - 1) + "0"
  }

  /** Python's `str.zfill(width)`: zeros on the left up to the width, placed after a leading sign. */
  function Zfill(s: string, width: nat): (z: string)
    ensures |z| == if |s| >= width then |s| else width
  {
    if |s| >= width then s
    else if s != [] && (s[0] == '+' || s[0] == '-') then [s[0]] + Zeros(width - |s|) + s[1..]
    else Zeros(width - |s|) + s
  }

  /** Codes of one to six digits become six-digit codes that end in the original digits. */
  lemma ZfillOfDigits(s: string)
    requires 0 < |s| <= 6 && forall i :: 0 <= i < |s| ==> IsDigit(s[i])
    ensures ValidCode(Zfill(s, 6)) && Zfill(s, 6)[6 - |s|..] == s
  {
    var z := Zfill(s, 6);
    assert z == Zeros(6 - |s|) + s;
    assert forall i :: 0 <= i < 6 ==> IsDigit(z[i]) by {
      forall i | 0 <= i < 6
        ensures IsDigit(z[i])
      {
        if i >= 6 - |s| {
          assert z[i] == s[i - (6 - |s|)];
        }
      }
    }
  }

  /** What one line of the file contributes: nothing for a blank or `#` line, else the padded first word and the second word as the name (the code when there is none). */
  function LineEntry(line: string): (e: Option<(string, string)>)
    ensures e.Some? ==> |e.value.0| >= 6
  {
    var t := Strip(line);
    if t == [] || t[0] == '#' then None
    else
      var parts := Words(t);
      if |parts| == 0 then None
      else
        var code := Zfill(parts[0], 6);
        Some((code, if |parts| > 1 then parts[1] else code))
  }

  /** The codes gathered by the first loop, in file order and with repetitions. */
  function RawCodes(lines: seq<string>): seq<string>
  {
    if lines == [] then []
    else
      var e := LineEntry(lines[|lines| - 1]);
      RawCodes(lines[..|lines| - 1]) + (if e.Some? then [e.value.0] else [])
  }

  /** The name map of the first loop: a later line for the same code overwrites the name. */
  function RawNames(lines: seq<string>): map<string, string>
  {
    if lines == [] then map[]
    else
      var e := LineEntry(lines[|lines| - 1]);
      var m := RawNames(lines[..|lines| - 1]);
      if e.Some? then m[e.value.0 := e.value.1] else m
  }

  lemma {:induction false} RawCodesHaveNames(lines: seq<string>)
    ensures forall c :: c in RawCodes(lines) ==> c in RawNames(lines)
  {
    if lines != [] {
      RawCodesHaveNames(lines[..|lines| - 1]);
    }
  }

  /** `code and len(code) == 6 and code.isdigit()`. */
  predicate ValidCode(c: string)
  {
    |c| == 6 && forall i :: 0 <= i < 6 ==> IsDigit(c[i])
  }

  /** The second loop: valid codes, each at its first occurrence. */
  function Deduped(codes: seq<string>): (u: seq<string>)
    ensures forall i :: 0 <= i < |u| ==> ValidCode(u[i]) && u[i] in codes
    ensures forall i, j :: 0 <= i < j < |u| ==> u[i] != u[j]
    ensures forall c :: c in codes && ValidCode(c) ==> c in u
  {
    if codes == [] then []
    else
      var prev := Deduped(codes[..|codes| - 1]);
      var c := codes[|codes| - 1];
      assert forall x :: x in codes[..|codes| - 1] ==> x in codes;
      if ValidCode(c) && c !in prev then prev + [c] else prev
  }

  /** Reading more lines only adds codes at the end: the codes keep the order of their first occurrence. */
  lemma {:induction false} DedupedExtends(s: seq<string>, t: seq<string>)
    ensures |Deduped(s)| <= |Deduped(s + t)| && Deduped(s) == Deduped(s + t)[..|Deduped(s)|]
  {
    if t != [] {
      var init := t[..|t| - 1];
      DedupedExtends(s, init);
      assert (s + t)[..|s + t| - 1] == s + init;
    } else {
      assert s + t == s;
    }
  }

  lemma RawStep(lines: seq<string>, i: nat)
    requires i < |lines|
    ensures var e := LineEntry(lines[i]);
            && RawCodes(lines[..i + 1]) == RawCodes(lines[..i]) + (if e.Some? then [e.value.0] else [])
            && RawNames(lines[..i + 1]) == (if e.Some? then RawNames(lines[..i])[e.value.0 := e.value.1] else RawNames(lines[..i]))
  {
    assert lines[..i + 1][..i] == lines[..i];
  }

  lemma DedupedStep(raw: seq<string>, j: nat)
    requires j < |raw|
    ensures var prev := Deduped(raw[..j]);
            Deduped(raw[..j + 1]) == if ValidCode(raw[j]) && raw[j] !in prev then prev + [raw[j]] else prev
  {
    assert raw[..j + 1][..j] == raw[..j];
  }

  /** `load_stock_codes_from_file` on the lines of a `.txt` file. */
  method LoadStockCodes(lines: seq<string>) returns (codes: seq<string>, names: map<string, string>)
    ensures codes == Deduped(RawCodes(lines))
    ensures names.Keys == set c | c in codes
    ensures forall c :: c in codes ==> c in RawNames(lines) && names[c] == RawNames(lines)[c]
  {
    var raw, rawNames := ReadCodeLines(lines);
    RawCodesHaveNames(lines);
    codes, names := KeepFirstValid(raw, rawNames);
  }

  /** The first loop of `load_stock_codes_from_file`: every listed code with its name. */
  method ReadCodeLines(lines: seq<string>) returns (raw: seq<string>, rawNames: map<string, string>)
    ensures raw == RawCodes(lines) && rawNames == RawNames(lines)
  {
    raw, rawNames := [], map[];
    var i := 0;
    while i < |lines|
      invariant 0 <= i <= |lines|
      invariant raw == RawCodes(lines[..i]) && rawNames == RawNames(lines[..i])
    {
      RawStep(lines, i);
      var e := LineEntry(lines[i]);
      if e.Some? {
        raw := raw + [e.value.0];
        rawNames := rawNames[e.value.0 := e.value.1];
      }
      i := i + 1;
    }
    assert lines[..|lines|] == lines;
  }

  /** The second loop: the valid codes at their first occurrence, with the names read for them. */
  method KeepFirstValid(raw: seq<string>, rawNames: map<string, string>) returns (codes: seq<string>, names: map<string, string>)
    requires forall c :: c in raw ==> c in rawNames
    ensures codes == Deduped(raw)
    ensures names.Keys == set c | c in codes
    ensures forall c :: c in codes ==> c in rawNames && names[c] == rawNames[c]
  {
    codes, names := [], map[];
    var j := 0;
    while j < |raw|
      invariant 0 <= j <= |raw|
      invariant codes == Deduped(raw[..j])
      invariant names.Keys == set c | c in codes
      invariant forall c :: c in codes ==> c in rawNames && names[c] == rawNames[c]
    {
      DedupedStep(raw, j);
      var c := raw[j];
      if ValidCode(c) && c !in codes {
        codes := codes + [c];
        names := names[c := rawNames[c]];
      }
      j := j + 1;
    }
    assert raw[..|raw|] == raw;
  }

  /** A later line for a code already read lists the code again and replaces its name. */
  lemma LaterLineReplacesName(lines: seq<string>, line: string)
    requires LineEntry(line).Some?
    ensures var e := LineEntry(line).value;
            RawCodes(lines + [line]) == RawCodes(lines) + [e.0] && RawNames(lines + [line]) == RawNames(lines)[e.0 := e.1]
  {
    assert (lines + [line])[..|lines|] == lines;
  }

  /** A code seen before adds nothing in the second loop, so its first position is kept. */
  lemma RepeatedCodeIsKeptOnce(codes: seq<string>, c: string)
    requires c in codes
    ensures Deduped(codes + [c]) == Deduped(codes)
  {
    assert (codes + [c])[..|codes|] == codes;
  }
}
