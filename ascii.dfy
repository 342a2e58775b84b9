/**
 * The ASCII-run scanner: walks the bytes once, collecting printable bytes
 * (32 to 126) into a candidate string; at each non-printable byte it reports
 * the candidate, with that byte's offset, when it is longer than a minimum,
 * and starts a new candidate.
 */
module Utils {
  import opened Common

  datatype AsciiReference = AsciiReference(offset: u32, ascii: string)
  {
    /** The empty reference. */
    static function New(): (r: AsciiReference)
      ensures r.offset == 0 && r.ascii == ""
    {
      AsciiReference(0, "")
    }

    static function From(offset: u32, ascii: string): (r: AsciiReference)
      ensures r.offset == offset && r.ascii == ascii
    {
      AsciiReference(offset, ascii)
    }
  }

  predicate Printable(b: byte)
  {
    32 <= b <= 126
  }

  /** Bytes read as characters. */
  function Text(s: seq<byte>): (t: string)
    ensures |t| == |s|
  {
    seq(|s|, k requires 0 <= k < |s| => s[k] as char)
  }

  /** Length of the run of printable bytes that ends just before index `i`. */
  function RunLength(bytes: seq<byte>, i: nat): (n: nat)
    requires i <= |bytes|
    ensures n <= i
  {
    if i == 0 || !Printable(bytes[i - 1]) then 0 else RunLength(bytes, i - 1) + 1
  }

  /** Index `i` holds a non-printable byte right after a printable run longer than `minChars`. */
  predicate Reported(bytes: seq<byte>, minChars: nat, i: int)
  {
    0 <= i < |bytes| && !Printable(bytes[i]) && RunLength(bytes, i) > minChars
  }

  /** The reference to the run that ends at a reported index. */
  function RunAt(bytes: seq<byte>, i: nat): AsciiReference
    requires i < |bytes| <= MaxU32
  {
    AsciiReference(i, Text(bytes[i - RunLength(bytes, i)..i]))
  }

  /** The references the scan has reported after the first `n` bytes. */
  function Expected(bytes: seq<byte>, minChars: nat, n: nat): seq<AsciiReference>
    requires n <= |bytes| <= MaxU32
  {
    if n == 0 then []
    else Expected(bytes, minChars, n - 1) + (if Reported(bytes, minChars, n - 1) then [RunAt(bytes, n - 1)] else [])
  }

  /** Number of non-printable bytes among the first `n`. */
  function NonPrintable(bytes: seq<byte>, n: nat): nat
    requires n <= |bytes|
  {
    if n == 0 then 0 else NonPrintable(bytes, n - 1) + (if Printable(bytes[n - 1]) then 0 else 1)
  }

  /** extract_ascii_references: one pass over the bytes with a running
      offset, a candidate string and the list of references. */
  method ExtractAsciiReferences(bytes: seq<byte>, minChars: byte) returns (refs: seq<AsciiReference>)
    requires |bytes| <= MaxU32
    ensures refs == Expected(bytes, minChars, |bytes|)
  {
    var offset: u32 := 0;
    var possibleStr: string := "";
    refs := [];
    for i := 0 to |bytes|
      invariant offset == i
      invariant possibleStr == Text(bytes[i - RunLength(bytes, i)..i])
      invariant refs == Expected(bytes, minChars, i)
    {
      var byte := bytes[i];
      if byte >= 32 && byte <= 126 {
        TextSnoc(bytes, i - RunLength(bytes, i), i);
        possibleStr := possibleStr + [byte as char];
      } else {
        if |possibleStr| > minChars as int {
          refs := refs + [AsciiReference.From(offset, possibleStr)];
        }
        possibleStr := "";
      }
      offset := offset + 1;
    }
  }

  // ---------------------------------------------------------------- lemmas

  /** Reading one more byte as a character appends it. */
  lemma TextSnoc(bytes: seq<byte>, a: nat, i: nat)
    requires a <= i < |bytes|
    ensures Text(bytes[a..i + 1]) == Text(bytes[a..i]) + [bytes[i] as char]
  {
    assert bytes[a..i + 1] == bytes[a..i] + [bytes[i]];
  }

  /** The run ending before `i` is printable throughout and cannot be extended
      to the left. */
  lemma {:induction false} RunIsMaximal(bytes: seq<byte>, i: nat)
    requires i <= |bytes|
    ensures forall k :: i - RunLength(bytes, i) <= k < i ==> Printable(bytes[k])
    ensures RunLength(bytes, i) < i ==> !Printable(bytes[i - RunLength(bytes, i) - 1])
  {
    if i > 0 && Printable(bytes[i - 1]) {
      RunIsMaximal(bytes, i - 1);
    }
  }

  /** Every reference lies in the first `n` bytes, at a reported index. */
  lemma {:induction false} ExpectedReported(bytes: seq<byte>, minChars: nat, n: nat)
    requires n <= |bytes| <= MaxU32
    ensures forall k :: 0 <= k < |Expected(bytes, minChars, n)| ==>
      Expected(bytes, minChars, n)[k].offset < n &&
      Expected(bytes, minChars, n)[k] == RunAt(bytes, Expected(bytes, minChars, n)[k].offset) &&
      Reported(bytes, minChars, Expected(bytes, minChars, n)[k].offset)
  {
    if n > 0 {
      ExpectedReported(bytes, minChars, n - 1);
    }
  }

  /** Each reference is a run of printable characters longer than the
      minimum, ending at the non-printable byte at its offset, read straight
      from the input, and not extendable to the left. */
  lemma RefShape(bytes: seq<byte>, minChars: nat, k: nat)
    requires |bytes| <= MaxU32 && k < |Expected(bytes, minChars, |bytes|)|
    ensures var r := Expected(bytes, minChars, |bytes|)[k]; var start := r.offset - |r.ascii|;
      && r.offset < |bytes| && !Printable(bytes[r.offset])
      && |r.ascii| > minChars
      && 0 <= start && r.ascii == Text(bytes[start..r.offset])
      && (forall j :: 0 <= j < |r.ascii| ==> 32 <= r.ascii[j] as int <= 126)
      && (start > 0 ==> !Printable(bytes[start - 1]))
  {
    var r := Expected(bytes, minChars, |bytes|)[k];
    ExpectedReported(bytes, minChars, |bytes|);
    RunIsMaximal(bytes, r.offset);
    var start := r.offset - |r.ascii|;
    forall j | 0 <= j < |r.ascii|
      ensures 32 <= r.ascii[j] as int <= 126
    {
      assert r.ascii[j] == bytes[start + j] as char;
    }
  }

  /** Offsets increase strictly, so references come in input order. */
  lemma {:induction false} OffsetsIncrease(bytes: seq<byte>, minChars: nat, n: nat)
    requires n <= |bytes| <= MaxU32
    ensures forall j, k :: 0 <= j < k < |Expected(bytes, minChars, n)| ==>
      Expected(bytes, minChars, n)[j].offset < Expected(bytes, minChars, n)[k].offset
  {
    if n > 0 {
      OffsetsIncrease(bytes, minChars, n - 1);
      ExpectedReported(bytes, minChars, n - 1);
      var prev := Expected(bytes, minChars, n - 1);
      var e := Expected(bytes, minChars, n);
      forall j, k | 0 <= j < k < |e|
        ensures e[j].offset < e[k].offset
      {
        assert e[j] == prev[j] && prev[j].offset < n - 1;
        if k < |prev| {
          assert e[k] == prev[k];
        } else {
          assert e[k] == RunAt(bytes, n - 1);
        }
      }
    }
  }

  /** An index is some reference's offset exactly when a long enough
      printable run ends there at a non-printable byte. */
  lemma {:induction false} ReportedIff(bytes: seq<byte>, minChars: nat, n: nat, i: int)
    requires n <= |bytes| <= MaxU32
    ensures (exists k :: 0 <= k < |Expected(bytes, minChars, n)| && Expected(bytes, minChars, n)[k].offset == i)
      <==> (Reported(bytes, minChars, i) && i < n)
  {
    if n > 0 {
      ReportedIff(bytes, minChars, n - 1, i);
      ExpectedReported(bytes, minChars, n - 1);
      var prev := Expected(bytes, minChars, n - 1);
      var e := Expected(bytes, minChars, n);
      if exists k :: 0 <= k < |e| && e[k].offset == i {
        var k :| 0 <= k < |e| && e[k].offset == i;
        if k < |prev| {
          assert prev[k] == e[k];
        }
      }
      if Reported(bytes, minChars, i) && i < n {
        if i < n - 1 {
          var k :| 0 <= k < |prev| && prev[k].offset == i;
          assert e[k] == prev[k];
        } else {
          assert e[|prev|].offset == i;
        }
      }
    }
  }

  /** The printable run at the end of the input is never reported: every
      reference ends before the trailing run starts. */
  lemma TrailingRunNotReported(bytes: seq<byte>, minChars: nat)
    requires |bytes| <= MaxU32
    ensures var e := Expected(bytes, minChars, |bytes|);
      forall k :: 0 <= k < |e| ==> e[k].offset < |bytes| - RunLength(bytes, |bytes|)
  {
    ExpectedReported(bytes, minChars, |bytes|);
    RunIsMaximal(bytes, |bytes|);
  }

  /** There are at most as many references as non-printable bytes. */
  lemma {:induction false} AtMostOnePerTerminator(bytes: seq<byte>, minChars: nat, n: nat)
    requires n <= |bytes| <= MaxU32
    ensures |Expected(bytes, minChars, n)| <= NonPrintable(bytes, n)
  {
    if n > 0 {
      AtMostOnePerTerminator(bytes, minChars, n - 1);
    }
  }
}
