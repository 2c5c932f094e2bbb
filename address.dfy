/**
 * Account addresses as the pages show and compare them: shortened to
 * "first six ... last four", and compared ignoring letter case.
 */
module Address {
  import opened Text

  function Min(a: int, b: int): int {
    if a <= b then a else b
  }

  /**
   * `${a.substring(0, 6)}...${a.substring(a.length - 4)}`: the first six characters,
   * "...", then the last four; a shorter address contributes what it has to each side.
   */
  function Shorten(address: string): (r: string)
    ensures |r| == Min(|address|, 6) + 3 + Min(|address|, 4)
    ensures r[..Min(|address|, 6)] == address[..Min(|address|, 6)]
    ensures r[Min(|address|, 6)..Min(|address|, 6) + 3] == "..."
    ensures r[Min(|address|, 6) + 3..] == address[|address| - Min(|address|, 4)..]
  {
    Substring(address, 0, 6) + "..." + SubstringFrom(address, |address| - 4)
  }

  /** A 20-byte address written as `0x` and 40 hex digits shortens to 13 characters. */
  lemma ShortenStandardAddress(address: string)
    requires |address| == 42
    ensures |Shorten(address)| == 13
    ensures Shorten(address) == address[..6] + "..." + address[38..]
  {
    var r := Shorten(address);
    assert r == r[..6] + r[6..9] + r[9..];
  }

  /** The root card's fixed offset: `${a.substring(0, 6)}...${a.substring(38)}`. */
  function ShortenAtFixedOffset(address: string): (r: string)
    ensures |r| == Min(|address|, 6) + 3 + (if |address| > 38 then |address| - 38 else 0)
    ensures r[..Min(|address|, 6)] == address[..Min(|address|, 6)]
    ensures r[Min(|address|, 6)..Min(|address|, 6) + 3] == "..."
    ensures r[Min(|address|, 6) + 3..] == if |address| > 38 then address[38..] else []
  {
    Substring(address, 0, 6) + "..." + SubstringFrom(address, 38)
  }

  /**
   * For a 42-character address the fixed offset 38 is exactly "the last four",
   * so the root card agrees with every other page; for other lengths it does not.
   */
  lemma FixedOffsetAgreesOnStandardAddress(address: string)
    ensures |address| == 42 ==> ShortenAtFixedOffset(address) == Shorten(address)
    ensures |address| == 50 ==> |ShortenAtFixedOffset(address)| == 21 && |Shorten(address)| == 13
  {
    if |address| == 42 {
      ShortenStandardAddress(address);
    }
  }
}
