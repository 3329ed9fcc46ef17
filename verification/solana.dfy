/** The address shortener of lib/solana.ts: the head and tail of an address
    joined by an ellipsis, cut with JavaScript `slice`. */
module Solana {
  import opened Optional
  import opened JsString

  /** How many characters are kept at each end when the caller gives none. */
  const DefaultChars: int := 4

  const Ellipsis: string := "..."

  /** `address.slice(0, chars) + "..." + address.slice(-chars)`. */
  function ShortenAddress(address: string, chars: int := DefaultChars): (r: string)
    ensures chars >= 1 ==>
      r == address[..Min(chars, |address|)] + Ellipsis + address[|address| - Min(chars, |address|)..]
    ensures chars == 0 ==> r == Ellipsis + address
    ensures chars < 0 ==>
      r == address[..(if |address| + chars < 0 then 0 else |address| + chars)]
           + Ellipsis + address[Min(-chars, |address|)..]
  {
    Slice(address, 0, Some(chars)) + Ellipsis + Slice(address, -chars, None)
  }

  /** Omitting `chars` is the same as passing 4. */
  lemma DefaultIsFour(address: string)
    ensures ShortenAddress(address) == ShortenAddress(address, 4)
  {
  }

  /** An address at least `chars` long shortens to exactly `2 * chars + 3`
      characters. */
  lemma ShortenedLength(address: string, chars: int)
    requires 1 <= chars <= |address|
    ensures |ShortenAddress(address, chars)| == 2 * chars + 3
  {
  }

  /** An address shorter than `chars` is repeated whole on both sides. */
  lemma ShortAddressRepeated(address: string, chars: int)
    requires |address| < chars
    ensures ShortenAddress(address, chars) == address + Ellipsis + address
  {
  }

  /** The worked example: twelve letters keep four at each end. */
  lemma ShortenExample()
    ensures ShortenAddress("ABCDEFGHIJKL", 4) == "ABCD...IJKL"
  {
  }

  /** For addresses at least `chars` long, two addresses shorten to the same
      text exactly when they agree on their first and last `chars` characters. */
  lemma ShortenDeterminedByEnds(a: string, b: string, chars: int)
    requires 1 <= chars <= |a| && chars <= |b|
    ensures ShortenAddress(a, chars) == ShortenAddress(b, chars)
            <==> a[..chars] == b[..chars] && a[|a| - chars..] == b[|b| - chars..]
  {
    var ra, rb := ShortenAddress(a, chars), ShortenAddress(b, chars);
    if ra == rb {
      assert a[..chars] == ra[..chars] == rb[..chars] == b[..chars];
      assert a[|a| - chars..] == ra[chars + 3..] == rb[chars + 3..] == b[|b| - chars..];
    }
  }
}
