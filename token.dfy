/** `TokenGenerator`: holds the bytes to hash and the last generated token,
    the lower-case hex SHA-256 digest of those bytes. SHA-256 itself (section
    6.2 of FIPS 180-4) is not part of this model: it enters as a function
    whose every digest is 32 bytes long. */
module Token {
  import opened Wrappers
  import opened Hex

  /** What the model knows of SHA-256: a function giving 256-bit digests. */
  ghost predicate IsSha256Shaped(sha256: seq<byte> -> seq<byte>) {
    forall m :: |sha256(m)| == 32
  }

  /** `format!("{:x}", hasher.finalize())` after hashing `source`: exactly 64
      lower-case hex digits. */
  function Digest(sha256: seq<byte> -> seq<byte>, source: seq<byte>): (d: string)
    requires IsSha256Shaped(sha256)
    ensures |d| == 64 && IsLowerHex(d) && IsAscii(d)
  {
    var d := LowerHex(sha256(source));
    LowerHexIsAscii(d);
    d
  }

  /** The text is a faithful rendering of the digest: two sources give the
      same token exactly when their SHA-256 digests agree. */
  lemma DigestIdentifiesHash(sha256: seq<byte> -> seq<byte>, a: seq<byte>, b: seq<byte>)
    requires IsSha256Shaped(sha256)
    ensures Digest(sha256, a) == Digest(sha256, b) <==> sha256(a) == sha256(b)
  {
    LowerHexInjective(sha256(a), sha256(b));
  }

  class TokenGenerator {
    const sha256: seq<byte> -> seq<byte>
    var source: seq<byte>
    var result: Option<string>

    /** Any token held is a rendered digest. */
    ghost predicate Valid()
      reads this
    {
      && IsSha256Shaped(sha256)
      && (result.Some? ==> |result.value| == 64 && IsLowerHex(result.value))
    }

    /** `TokenGenerator::new`: the given source, no token yet. */
    constructor (sha256: seq<byte> -> seq<byte>, source: seq<byte>)
      requires IsSha256Shaped(sha256)
      ensures Valid()
      ensures this.sha256 == sha256 && this.source == source && result == None
    {
      this.sha256 := sha256;
      this.source := source;
      result := None;
    }

    /** `set_source`: replaces the source; the token stays until the next
        `generate`. */
    method SetSource(newSource: seq<byte>)
      requires Valid()
      modifies this`source
      ensures Valid()
      ensures source == newSource && result == old(result)
    {
      source := newSource;
    }

    /** `generate`: the token becomes the digest of the current source,
        overwriting any earlier one; the source is kept. */
    method Generate()
      requires Valid()
      modifies this`result
      ensures Valid()
      ensures source == old(source) && result == Some(Digest(sha256, source))
    {
      result := Some(Digest(sha256, source));
    }

    /** `get_result`: a copy of the token, if one was generated; nothing
        changes, so repeated calls agree. */
    method GetResult() returns (r: Option<string>)
      requires Valid()
      ensures r == result
      ensures r.Some? ==> |r.value| == 64 && IsLowerHex(r.value)
    {
      r := result;
    }
  }

  /** The library test: a fresh generator holds nothing, and after one
      `generate` it holds a 64-character token; generating again on the same
      source gives the same token. */
  method GeneratorScenario(sha256: seq<byte> -> seq<byte>, source: seq<byte>)
    returns (before: Option<string>, first: Option<string>, second: Option<string>)
    requires IsSha256Shaped(sha256)
    ensures before == None
    ensures first.Some? && |first.value| == 64 && first == second
    ensures first == Some(Digest(sha256, source))
  {
    var g := new TokenGenerator(sha256, source);
    before := g.GetResult();
    g.Generate();
    first := g.GetResult();
    g.Generate();
    second := g.GetResult();
  }
}
