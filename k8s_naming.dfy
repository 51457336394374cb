/**
 * Job names, random suffixes and label values of the Kubernetes backend
 * (internal/backend/k8s/apply.go).  URL parsing is not modelled: its outcome
 * is an input, and so are the random bytes and the clock reading.
 */
module K8sNaming {
  import opened Wrappers
  import opened Strings

  newtype byte = x: int | 0 <= x < 256

  /** What url.Parse reports: an error, or the URL's scheme and path. */
  datatype ParsedUrl = ParseError | Parsed(scheme: string, path: string)

  /** The DNS label limit (section 2.3.4 of RFC 1035) that Kubernetes applies to names. */
  const MaxNameLen := 63
  const SuffixLen := 8
  /** 63 - len("baca-") - 1 - 8 */
  const MaxPathLen := MaxNameLen - |"baca-"| - 1 - SuffixLen

  // ---------------------------------------------------------------------------
  // generateRandomSuffix

  /** hex.EncodeToString: two lower-case digits per byte, high nibble first. */
  function HexEncode(b: seq<byte>): (r: string)
    ensures |r| == 2 * |b| && IsLowerHex(r)
    ensures forall i :: 0 <= i < |b| ==>
      r[2 * i] == HexDigit(b[i] as nat / 16) && r[2 * i + 1] == HexDigit(b[i] as nat % 16)
  {
    if b == [] then ""
    else [HexDigit(b[0] as nat / 16), HexDigit(b[0] as nat % 16)] + HexEncode(b[1..])
  }

  /**
   * generateRandomSuffix: `random` is what rand.Read put into the 4-byte
   * buffer (Err when it failed), `unixNano` the clock reading used instead.
   * Go's `& 0xffffffff` on an int64 keeps the low 32 bits of the two's
   * complement, which is the Euclidean remainder modulo 2^32.
   */
  function GenerateRandomSuffix(random: Result<seq<byte>, string>, unixNano: int): (r: string)
    requires random.Ok? ==> |random.value| == 4
    ensures random.Ok? ==> r == HexEncode(random.value)
    ensures random.Err? ==> r == NatToHex(unixNano % 0x1_0000_0000)
  {
    match random
    case Ok(b) => HexEncode(b)
    case Err(_) => NatToHex(unixNano % 0x1_0000_0000)
  }

  /** Either way the suffix is 1 to 8 lower-case hex digits, exactly 8 with randomness. */
  lemma SuffixShape(random: Result<seq<byte>, string>, unixNano: int)
    requires random.Ok? ==> |random.value| == 4
    ensures var r := GenerateRandomSuffix(random, unixNano);
      IsLowerHex(r) && 1 <= |r| <= SuffixLen && (random.Ok? ==> |r| == SuffixLen)
  {
    if random.Err? {
      assert Pow16(8) == 0x1_0000_0000;
      NatToHexLength(unixNano % 0x1_0000_0000, 8);
    }
  }

  // ---------------------------------------------------------------------------
  // generateJobName

  /** The path with one leading "/" and one trailing ".git" removed, every
    * "/" turned into "-", lower-cased and cut to `max` characters. */
  function PathPart(path: string, max: nat): (r: string)
    ensures |r| <= max && IsLower(r) && '/' !in r
  {
    var p := ReplaceAll(TrimSuffix(TrimPrefix(path, "/"), ".git"), "/", "-");
    ReplaceAllRemoves(TrimSuffix(TrimPrefix(path, "/"), ".git"), "/", "-");
    ToLowerKeepsAbsent(p, '/');
    Truncate(ToLower(p), max)
  }

  /** generateJobName, given the parse outcome and the suffix generated for it. */
  function GenerateJobName(url: ParsedUrl, suffix: string): (r: string)
    ensures url.ParseError? || url.scheme == "" ==> r == "baca-job-" + suffix
    ensures url.Parsed? && url.scheme != "" ==> r == "baca-" + PathPart(url.path, MaxPathLen) + "-" + suffix
  {
    if url.ParseError? || url.scheme == "" then "baca-job-" + suffix
    else "baca-" + PathPart(url.path, MaxPathLen) + "-" + suffix
  }

  /** The fixed pieces of a job name are lower-case. */
  lemma NamePiecesLower()
    ensures IsLower("baca-") && IsLower("-") && IsLower("job") && IsLower("bca-")
  {
  }

  /** With a suffix of at most 8 lower-case hex digits the name fits the
    * 63-character limit, has no upper-case letter and starts with "baca-". */
  lemma JobNameBounded(url: ParsedUrl, suffix: string)
    requires |suffix| <= SuffixLen && IsLowerHex(suffix)
    ensures var r := GenerateJobName(url, suffix);
      |r| <= MaxNameLen && IsLower(r) && HasPrefix(r, "baca-") && HasSuffix(r, "-" + suffix)
  {
    var p := if url.ParseError? || url.scheme == "" then "job" else PathPart(url.path, MaxPathLen);
    NamePiecesLower();
    LowerHexIsLower(suffix);
    LowerConcat4("baca-", p, "-", suffix);
  }

  /** For one URL, different suffixes give different names. */
  lemma JobNameSuffixInjective(url: ParsedUrl, s1: string, s2: string)
    requires s1 != s2
    ensures GenerateJobName(url, s1) != GenerateJobName(url, s2)
  {
    var p := if url.ParseError? || url.scheme == "" then "job" else PathPart(url.path, MaxPathLen);
    var r1, r2 := GenerateJobName(url, s1), GenerateJobName(url, s2);
    var head := "baca-" + p + "-";
    assert r1 == head + s1 && r2 == head + s2;
    assert r1[|head|..] == s1 && r2[|head|..] == s2;
  }

  // ---------------------------------------------------------------------------
  // sanitizeLabel

  /** sanitizeLabel: drop the URL schemes, turn "/" and "." into "-",
    * lower-case, and cut to 63 characters. */
  function SanitizeLabel(s: string): (r: string)
    ensures |r| <= MaxNameLen && '/' !in r && '.' !in r && IsLower(r)
  {
    var s1 := ReplaceAll(s, "https://", "");
    var s2 := ReplaceAll(s1, "http://", "");
    var s3 := ReplaceAll(s2, "/", "-");
    ReplaceAllRemoves(s2, "/", "-");
    var s4 := ReplaceAll(s3, ".", "-");
    ReplaceAllRemoves(s3, ".", "-");
    ReplaceAllKeepsAbsent(s3, ".", "-", '/');
    ToLowerKeepsAbsent(s4, '/');
    ToLowerKeepsAbsent(s4, '.');
    Truncate(ToLower(s4), MaxNameLen)
  }

  /** A sanitized label is a fixed point: sanitizing it again changes nothing. */
  lemma SanitizeLabelIdempotent(s: string)
    ensures SanitizeLabel(SanitizeLabel(s)) == SanitizeLabel(s)
  {
    var l := SanitizeLabel(s);
    AbsentCharNotContained(l, "https://", '/');
    ReplaceAllAbsent(l, "https://", "");
    AbsentCharNotContained(l, "http://", '/');
    ReplaceAllAbsent(l, "http://", "");
    AbsentCharNotContained(l, "/", '/');
    ReplaceAllAbsent(l, "/", "-");
    AbsentCharNotContained(l, ".", '.');
    ReplaceAllAbsent(l, ".", "-");
    assert ToLower(l) == l;
  }
}
