/** How digests frame their parts (internal/application/configuration_authority.go), and what the
    anchor of an apply command identifies (internal/application/configuration_service.go). */
module Framing {
  import opened Outcomes
  import opened Texts

  // ---------------------------------------------------------------- frames

  /** What is hashed for some parts: each one, and a NUL after it. */
  function Framed(parts: seq<string>): string {
    if parts == [] then "" else parts[0] + ([NUL] + Framed(parts[1..]))
  }

  /** configurationDigest, up to the hash function, which is taken to be injective. */
  method HashInput(parts: seq<string>) returns (input: string)
    ensures input == Framed(parts)
  {
    input := "";
    for i := 0 to |parts|
      invariant input + Framed(parts[i..]) == Framed(parts)
    {
      assert parts[i..][1..] == parts[i + 1..];
      assert input + (parts[i] + ([NUL] + Framed(parts[i + 1..]))) == ((input + parts[i]) + [NUL])
        + Framed(parts[i + 1..]);
      input := input + parts[i] + [NUL];
    }
    assert input + "" == input;
  }

  /** Everything up to the first NUL. */
  function FirstPart(text: string): (n: nat)
    ensures n <= |text| && NulFree(text[..n]) && (n < |text| ==> text[n] == NUL)
  {
    if text == "" || text[0] == NUL then 0
    else
      var n := 1 + FirstPart(text[1..]);
      assert text[..n] == [text[0]] + text[1..][..n - 1];
      n
  }

  /** Reads the parts back; None when the last one is not terminated. */
  function Unframe(text: string): Option<seq<string>>
    decreases |text|
  {
    if text == "" then Some([])
    else
      var n := FirstPart(text);
      if n == |text| then None
      else
        match Unframe(text[n + 1..])
        case None => None
        case Some(rest) => Some([text[..n]] + rest)
  }

  lemma {:induction false} FirstPartOf(part: string, rest: string)
    requires NulFree(part)
    ensures FirstPart(part + ([NUL] + rest)) == |part|
  {
    var text := part + ([NUL] + rest);
    if part != "" {
      FirstPartOf(part[1..], rest);
      assert text[1..] == part[1..] + ([NUL] + rest);
    }
  }

  lemma UnframeHead(part: string, rest: string)
    requires NulFree(part)
    ensures Unframe(part + ([NUL] + rest)) ==
      (match Unframe(rest) case None => None case Some(parts) => Some([part] + parts))
  {
    hide FirstPart, NulFree;
    var text := part + ([NUL] + rest);
    FirstPartOf(part, rest);
    assert text[..|part|] == part && text[|part| + 1..] == rest;
  }

  /** Parts without NUL read back exactly. */
  lemma {:induction false} FramesReadBack(parts: seq<string>)
    requires forall p :: p in parts ==> NulFree(p)
    ensures Unframe(Framed(parts)) == Some(parts)
  {
    if parts != [] {
      UnframeHead(parts[0], Framed(parts[1..]));
      FramesReadBack(parts[1..]);
      hide Unframe, NulFree;
      assert parts == [parts[0]] + parts[1..];
    }
  }

  lemma {:induction false} UnframedReadsBack(text: string)
    ensures Unframe(text).Some? ==>
      Framed(Unframe(text).value) == text && forall p :: p in Unframe(text).value ==> NulFree(p)
    decreases |text|
  {
    if text != "" && FirstPart(text) < |text| {
      var n := FirstPart(text);
      UnframedReadsBack(text[n + 1..]);
      assert text == text[..n] + ([NUL] + text[n + 1..]);
    }
  }

  /** Two lists of NUL-free parts hash the same input only if they are the same. */
  lemma FramesAreUnique(a: seq<string>, b: seq<string>)
    requires forall p :: p in a ==> NulFree(p)
    requires forall p :: p in b ==> NulFree(p)
    requires Framed(a) == Framed(b)
    ensures a == b
  {
    FramesReadBack(a);
    FramesReadBack(b);
  }

  /** One leading NUL-free part can always be told apart from the rest. */
  lemma HeadIsUnique(p: string, q: string, x: string, y: string)
    requires NulFree(p) && NulFree(q) && p + ([NUL] + x) == q + ([NUL] + y)
    ensures p == q && x == y
  {
    FirstPartOf(p, x);
    FirstPartOf(q, y);
    assert p == (p + ([NUL] + x))[..|p|] && q == (q + ([NUL] + y))[..|q|];
    assert x == (p + ([NUL] + x))[|p| + 1..] && y == (q + ([NUL] + y))[|q| + 1..];
  }

  // ---------------------------------------------------------------- numbers

  function Digit(d: nat): char
    requires d < 10
  {
    ['0', '1', '2', '3', '4', '5', '6', '7', '8', '9'][d]
  }

  /** strconv.FormatInt for a number that is not negative. */
  function Digits(n: nat): (s: string)
    ensures s != "" && '-' !in s && NulFree(s)
  {
    if n < 10 then [Digit(n)] else Digits(n / 10) + [Digit(n % 10)]
  }

  function Decimal(n: int): (s: string)
    ensures NulFree(s) && ('-' in s <==> n < 0)
  {
    if n < 0 then ['-'] + Digits(-n) else Digits(n)
  }

  function DigitValue(c: char): int {
    c as int - '0' as int
  }

  function Value(s: string): int {
    if s == "" then 0 else 10 * Value(s[..|s| - 1]) + DigitValue(s[|s| - 1])
  }

  lemma {:induction false} DigitsReadBack(n: nat)
    ensures Value(Digits(n)) == n
  {
    if n < 10 {
      assert [Digit(n)][..0] == "";
    } else {
      DigitsReadBack(n / 10);
      assert Digits(n)[..|Digits(n)| - 1] == Digits(n / 10);
    }
  }

  /** Nothing but digits, which read back to the number, and no leading zero. */
  lemma {:induction false} DigitsArePlain(n: nat)
    ensures Value(Digits(n)) == n
    ensures forall c :: c in Digits(n) ==> '0' <= c <= '9'
    ensures Digits(n)[0] == '0' ==> n == 0
  {
    DigitsReadBack(n);
    if n >= 10 {
      DigitsArePlain(n / 10);
    }
  }

  lemma DecimalIsUnique(m: int, n: int)
    requires Decimal(m) == Decimal(n)
    ensures m == n
  {
    hide Digits, Value;
    if m < 0 && n < 0 {
      assert Decimal(m)[1..] == Digits(-m) && Decimal(n)[1..] == Digits(-n);
      DigitsReadBack(-m);
      DigitsReadBack(-n);
    } else if m >= 0 && n >= 0 {
      DigitsReadBack(m);
      DigitsReadBack(n);
    }
  }

  // ---------------------------------------------------------------- anchors

  datatype Kind = Normal | Rollback | Onboarding | SchemaMigration

  datatype Provenance = Provenance(
    kind: Kind, rollbackSource: int, rollbackDigest: string, onboardingId: string, onboardingDigest: string,
    requestId: string, previewDigest: string)

  /** ConfigurationApplyProvenance.Valid, of a normalised provenance: exactly the sources of its kind are set. */
  predicate ValidProvenance(p: Provenance) {
    && (p.kind == Rollback ==> p.rollbackSource > 0 && ValidDigest(p.rollbackDigest))
    && (p.kind != Rollback ==> p.rollbackSource == 0 && p.rollbackDigest == "")
    && (p.kind == Onboarding ==> "onboarding-" <= p.onboardingId && ValidDigest(p.onboardingDigest))
    && (p.kind != Onboarding ==> p.onboardingId == "" && p.onboardingDigest == "")
    && (p.kind == SchemaMigration ==> ValidRequestId(p.requestId) && ValidDigest(p.previewDigest))
    && (p.kind != SchemaMigration ==> p.requestId == "" && p.previewDigest == "")
  }

  datatype Apply = Apply(expectedId: int, expectedDigest: string, candidate: string, provenance: Provenance)

  predicate Identifiable(a: Apply) {
    NulFree(a.expectedDigest) && ValidDigest(a.candidate) && ValidProvenance(a.provenance)
  }

  function Tag(k: Kind): string {
    match k
    case Normal => "configuration-apply"
    case Rollback => "configuration-apply-v2"
    case Onboarding => "configuration-apply-v3"
    case SchemaMigration => "configuration-apply-v4"
  }

  function KindText(k: Kind): string {
    match k
    case Normal => "normal"
    case Rollback => "rollback"
    case Onboarding => "onboarding"
    case SchemaMigration => "schema_migration"
  }

  /** The parts only some kinds have. */
  function SourceParts(p: Provenance): seq<string> {
    match p.kind
    case Normal => []
    case Rollback => [KindText(p.kind), Decimal(p.rollbackSource), p.rollbackDigest]
    case Onboarding => [KindText(p.kind), p.onboardingId, p.onboardingDigest]
    case SchemaMigration => [KindText(p.kind), p.requestId, p.previewDigest]
  }

  /** What the operation anchor of configurationApplyReceiptFor hashes. */
  function Anchor(a: Apply): string {
    Framed([Tag(a.provenance.kind), Decimal(a.expectedId), a.expectedDigest, a.candidate] + SourceParts(a.provenance))
  }

  lemma FramedHead(p: string, rest: seq<string>)
    ensures Framed([p] + rest) == p + ([NUL] + Framed(rest))
  {
    assert ([p] + rest)[1..] == rest;
  }

  lemma FramedFour(p: string, q: string, r: string, s: string, rest: seq<string>)
    ensures Framed([p, q, r, s] + rest) == p + ([NUL] + (q + ([NUL] + (r + ([NUL] + (s + ([NUL] + Framed(rest))))))))
  {
    hide Framed;
    FramedHead(s, rest);
    FramedHead(r, [s] + rest);
    FramedHead(q, [r] + ([s] + rest));
    FramedHead(p, [q] + ([r] + ([s] + rest)));
    assert [p, q, r, s] + rest == [p] + ([q] + ([r] + ([s] + rest)));
  }

  lemma FramedThree(p: string, q: string, r: string)
    ensures Framed([p, q, r]) == p + ([NUL] + (q + ([NUL] + (r + [NUL]))))
  {
    FramedHead(r, []);
    FramedHead(q, [r] + []);
    FramedHead(p, [q] + ([r] + []));
    assert [p, q, r] == [p] + ([q] + ([r] + []));
    assert [NUL] + "" == [NUL];
  }

  lemma DigestsAreNulFree(d: string)
    requires ValidDigest(d)
    ensures NulFree(d)
  {
  }

  /** A text before a digest at the very end, even one with NULs in it, is told apart by the digest's
      fixed length. */
  lemma TailIsUnique(x: string, d: string, y: string, e: string)
    requires |d| == |e| && x + ([NUL] + (d + [NUL])) == y + ([NUL] + (e + [NUL]))
    ensures x == y && d == e
  {
    var text := x + ([NUL] + (d + [NUL]));
    assert |x| == |y|;
    assert text[..|x|] == x && text[..|y|] == y;
    assert text[|x| + 1..|text| - 1] == d && text[|y| + 1..|text| - 1] == e;
  }

  lemma TagsDiffer(j: Kind, k: Kind)
    requires Tag(j) == Tag(k)
    ensures j == k
  {
    assert |Tag(Normal)| == 19 && |Tag(Rollback)| == 22;
    assert Tag(Rollback)[21] == '2' && Tag(Onboarding)[21] == '3' && Tag(SchemaMigration)[21] == '4';
  }

  lemma SourcesAreUnique(p: Provenance, q: Provenance)
    requires ValidProvenance(p) && ValidProvenance(q) && p.kind == q.kind
    requires Framed(SourceParts(p)) == Framed(SourceParts(q))
    ensures p == q
  {
    var k := KindText(p.kind);
    match p.kind
    case Normal =>
    case Rollback =>
      FramedThree(k, Decimal(p.rollbackSource), p.rollbackDigest);
      FramedThree(k, Decimal(q.rollbackSource), q.rollbackDigest);
      HeadIsUnique(k, k, Decimal(p.rollbackSource) + ([NUL] + (p.rollbackDigest + [NUL])),
        Decimal(q.rollbackSource) + ([NUL] + (q.rollbackDigest + [NUL])));
      TailIsUnique(Decimal(p.rollbackSource), p.rollbackDigest, Decimal(q.rollbackSource), q.rollbackDigest);
      DecimalIsUnique(p.rollbackSource, q.rollbackSource);
    case Onboarding =>
      FramedThree(k, p.onboardingId, p.onboardingDigest);
      FramedThree(k, q.onboardingId, q.onboardingDigest);
      HeadIsUnique(k, k, p.onboardingId + ([NUL] + (p.onboardingDigest + [NUL])),
        q.onboardingId + ([NUL] + (q.onboardingDigest + [NUL])));
      TailIsUnique(p.onboardingId, p.onboardingDigest, q.onboardingId, q.onboardingDigest);
    case SchemaMigration =>
      FramedThree(k, p.requestId, p.previewDigest);
      FramedThree(k, q.requestId, q.previewDigest);
      HeadIsUnique(k, k, p.requestId + ([NUL] + (p.previewDigest + [NUL])),
        q.requestId + ([NUL] + (q.previewDigest + [NUL])));
      TailIsUnique(p.requestId, p.previewDigest, q.requestId, q.previewDigest);
  }

  /** Two applies hash the same anchor exactly when expected generation, expected digest, candidate,
      kind and sources all agree. */
  lemma AnchorsAgree(a: Apply, b: Apply)
    requires Identifiable(a) && Identifiable(b)
    ensures Anchor(a) == Anchor(b) <==> a == b
  {
    if Anchor(a) == Anchor(b) {
      hide Framed, Decimal, SourceParts, FirstPart;
      DigestsAreNulFree(a.candidate);
      DigestsAreNulFree(b.candidate);
      var ta, tb := Tag(a.provenance.kind), Tag(b.provenance.kind);
      var sa, sb := SourceParts(a.provenance), SourceParts(b.provenance);
      FramedFour(ta, Decimal(a.expectedId), a.expectedDigest, a.candidate, sa);
      FramedFour(tb, Decimal(b.expectedId), b.expectedDigest, b.candidate, sb);
      var a3, b3 := a.candidate + ([NUL] + Framed(sa)), b.candidate + ([NUL] + Framed(sb));
      var a2, b2 := a.expectedDigest + ([NUL] + a3), b.expectedDigest + ([NUL] + b3);
      var a1, b1 := Decimal(a.expectedId) + ([NUL] + a2), Decimal(b.expectedId) + ([NUL] + b2);
      TagIsNulFree(a.provenance.kind);
      TagIsNulFree(b.provenance.kind);
      HeadIsUnique(ta, tb, a1, b1);
      HeadIsUnique(Decimal(a.expectedId), Decimal(b.expectedId), a2, b2);
      HeadIsUnique(a.expectedDigest, b.expectedDigest, a3, b3);
      HeadIsUnique(a.candidate, b.candidate, Framed(sa), Framed(sb));
      TagsDiffer(a.provenance.kind, b.provenance.kind);
      DecimalIsUnique(a.expectedId, b.expectedId);
      SourcesAreUnique(a.provenance, b.provenance);
    }
  }

  lemma TagIsNulFree(k: Kind)
    ensures NulFree(Tag(k)) && NulFree(KindText(k))
  {
  }
}
