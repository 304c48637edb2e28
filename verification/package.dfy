/** The package classifier: a vendor package string such as "LQFP48" is
    split into a leading family code and the pin count written right after
    it (src/package.rs). */
module PackageModel {
  import opened Wrappers
  import opened Ints
  import opened Text
  import Seqs

  /** A footprint family together with its pin count. */
  datatype Package =
    | LQFP(count: u16)
    | TSSOP(count: u16)
    | WLCSP(count: u16)
    | UFQFPN(count: u16)
    | TFBGA(count: u16)
    | VFQFPN(count: u16)
    | EWLCSP(count: u16)
    | UFBGA(count: u16)
    | LFBGA(count: u16)
    | Unknown(count: u16)

  /** The reasons `str::parse::<u16>` gives up on the digit run; the source
      unwraps the parse, so either one is a panic. */
  datatype ParseIntError = Empty | PosOverflow

  /** The nine family codes the lookup table recognises. */
  const KnownCodes: seq<string> :=
    ["LQFP", "TSSOP", "WLCSP", "UFQFPN", "TFBGA", "VFQFPN", "EWLCSP", "UFBGA", "LFBGA"]

  /** The exact-match lookup table from family code to variant. */
  function FromCode(code: string, count: u16): (p: Package)
    ensures p.count == count
    ensures p.Unknown? <==> code !in KnownCodes
    ensures code in KnownCodes ==> Code(p) == code
  {
    if code == "LQFP" then LQFP(count)
    else if code == "TSSOP" then TSSOP(count)
    else if code == "WLCSP" then WLCSP(count)
    else if code == "UFQFPN" then UFQFPN(count)
    else if code == "TFBGA" then TFBGA(count)
    else if code == "VFQFPN" then VFQFPN(count)
    else if code == "EWLCSP" then EWLCSP(count)
    else if code == "UFBGA" then UFBGA(count)
    else if code == "LFBGA" then LFBGA(count)
    else Unknown(count)
  }

  /** The family code a variant is written with; `Unknown` has none. */
  function Code(p: Package): string {
    match p
    case LQFP(_) => "LQFP"
    case TSSOP(_) => "TSSOP"
    case WLCSP(_) => "WLCSP"
    case UFQFPN(_) => "UFQFPN"
    case TFBGA(_) => "TFBGA"
    case VFQFPN(_) => "VFQFPN"
    case EWLCSP(_) => "EWLCSP"
    case UFBGA(_) => "UFBGA"
    case LFBGA(_) => "LFBGA"
    case Unknown(_) => ""
  }

  /** `Package::new`: the leading ASCII letters are the family code, the
      digits right after them the pin count, and the rest is ignored. An
      absent or oversized count panics. */
  function Classify(s: string): (r: Result<Package, ParseIntError>)
    ensures |s| == 0 ==> r == Failure(Empty)
  {
    var a := Seqs.SpanLength(s, IsAsciiAlpha);
    var family := s[..a];
    var rest := s[a..];
    var d := Seqs.SpanLength(rest, IsAsciiDigit);
    var digits := rest[..d];
    if d == 0 then Failure(Empty)
    else
      var n := ParseDecimal(digits);
      if n >= 0x1_0000 then Failure(PosOverflow)
      else Success(FromCode(family, n))
  }

  /** `Package::pins`: the carried count, whatever the family. */
  function Pins(p: Package): (n: u16)
    ensures n == p.count
  {
    match p
    case LQFP(count) => count
    case TSSOP(count) => count
    case WLCSP(count) => count
    case UFQFPN(count) => count
    case TFBGA(count) => count
    case VFQFPN(count) => count
    case EWLCSP(count) => count
    case UFBGA(count) => count
    case LFBGA(count) => count
    case Unknown(count) => count
  }

  /** `Package::is_grid`: the ball-grid and chip-scale families. */
  function IsGrid(p: Package): bool {
    match p
    case UFBGA(_) => true
    case TFBGA(_) => true
    case EWLCSP(_) => true
    case WLCSP(_) => true
    case LFBGA(_) => true
    case _ => false
  }

  predicate EndsWith(s: string, suffix: string) {
    |suffix| <= |s| && s[|s| - |suffix|..] == suffix
  }

  /** A package is laid out on a grid exactly when its family is a ball-grid
      array ("…BGA") or a wafer-level chip-scale package ("…CSP"). */
  lemma IsGridBallOrChipScale(p: Package)
    ensures IsGrid(p) <==> EndsWith(Code(p), "BGA") || EndsWith(Code(p), "CSP")
  {
  }

  /** The classification of a string that is a family code, a non-empty digit
      run, and a tail that does not continue the digit run. */
  lemma {:induction false} ClassifySplit(family: string, digits: string, tail: string)
    requires AllAsciiAlpha(family)
    requires |digits| > 0 && AllAsciiDigits(digits)
    requires |tail| == 0 || !IsAsciiDigit(tail[0])
    ensures ParseDecimal(digits) < 0x1_0000 ==>
      Classify(family + digits + tail) == Success(FromCode(family, ParseDecimal(digits)))
    ensures ParseDecimal(digits) >= 0x1_0000 ==>
      Classify(family + digits + tail) == Failure(PosOverflow)
  {
    var s := family + digits + tail;
    assert s == family + (digits + tail);
    assert (digits + tail)[0] == digits[0];
    Seqs.SpanLengthOfConcat(family, digits + tail, IsAsciiAlpha);
    assert s[..|family|] == family;
    assert s[|family|..] == digits + tail;
    Seqs.SpanLengthOfConcat(digits, tail, IsAsciiDigit);
    assert (digits + tail)[..|digits|] == digits;
  }

  /** A family code with no digits after it panics on the empty count. */
  lemma {:induction false} ClassifyMissingCount(family: string, tail: string)
    requires AllAsciiAlpha(family)
    requires |tail| == 0 || (!IsAsciiAlpha(tail[0]) && !IsAsciiDigit(tail[0]))
    ensures Classify(family + tail) == Failure(Empty)
  {
    var s := family + tail;
    Seqs.SpanLengthOfConcat(family, tail, IsAsciiAlpha);
    assert s[|family|..] == tail;
  }

  /** Every package is recovered from its family code followed by its pin
      count in decimal. */
  lemma ClassifyRoundTrip(p: Package)
    ensures Classify(Code(p) + Decimal(Pins(p))) == Success(p)
  {
    var code := Code(p);
    var digits := Decimal(p.count);
    DecimalRoundTrip(p.count);
    CodeOfPackage(p);
    ClassifySplit(code, digits, []);
    assert code + digits + [] == code + digits;
  }

  /** Family codes are letters, and the lookup table maps each back to its
      variant. */
  lemma CodeOfPackage(p: Package)
    ensures AllAsciiAlpha(Code(p))
    ensures FromCode(Code(p), p.count) == p
  {
  }

  /** The unit tests: "LQFP48" is a 48-pin quad flat package. */
  lemma ClassifyLqfp48()
    ensures Classify("LQFP48") == Success(LQFP(48))
    ensures !IsGrid(LQFP(48)) && Pins(LQFP(48)) == 48
  {
    assert Decimal(48) == "48";
    DecimalRoundTrip(48);
    ClassifySplit("LQFP", "48", "");
    assert "LQFP" + "48" + "" == "LQFP48";
  }

  /** "TFBGA144" is a 144-ball grid array. */
  lemma ClassifyTfbga144()
    ensures Classify("TFBGA144") == Success(TFBGA(144))
    ensures IsGrid(TFBGA(144)) && Pins(TFBGA(144)) == 144
  {
    assert Decimal(14) == "14";
    assert Decimal(144) == "144";
    DecimalRoundTrip(144);
    ClassifySplit("TFBGA", "144", "");
    assert "TFBGA" + "144" + "" == "TFBGA144";
  }

  /** A bare family code has no count and panics, like the empty string. */
  lemma ClassifyBareCode()
    ensures Classify("LQFP") == Failure(Empty)
  {
  }

  /** The lookup is exact: a lower-case code, or none, is `Unknown`. */
  lemma ClassifyUnknownCodes()
    ensures Classify("lqfp48") == Success(Unknown(48))
    ensures Classify("48") == Success(Unknown(48))
  {
    assert Decimal(48) == "48";
    DecimalRoundTrip(48);
    ClassifySplit("lqfp", "48", "");
    assert "lqfp" + "48" + "" == "lqfp48";
    ClassifySplit("", "48", "");
    assert "" + "48" + "" == "48";
  }

  /** A count beyond `u16` panics. */
  lemma ClassifyOverflow()
    ensures Classify("LQFP65536") == Failure(PosOverflow)
  {
    assert Decimal(65) == "65";
    assert Decimal(655) == "655";
    assert Decimal(6553) == "6553";
    assert Decimal(65536) == "65536";
    DecimalRoundTrip(65536);
    ClassifySplit("LQFP", "65536", "");
    assert "LQFP" + "65536" + "" == "LQFP65536";
  }
}
