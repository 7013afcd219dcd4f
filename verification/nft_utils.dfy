/**
 * The OpenSea link for an NFT and the metadata object built for a minted
 * token.
 */
module NftUtils {

  /** The collection's item page on OpenSea; it does not end with a slash. */
  const OpenSeaBaseUrl: string := "https://opensea.io/item/matic/0xb6d0ceccb62541ffe71d5ca7776920d8abf2705d"

  /** `s.replace(/\/$/, "")`: removes one slash at the very end, if there is one. */
  function StripTrailingSlash(s: string): (r: string)
    ensures s == r + (if |s| > 0 && s[|s| - 1] == '/' then "/" else "")
  {
    if |s| > 0 && s[|s| - 1] == '/' then s[..|s| - 1] else s
  }

  /** `s.replace(/^\/+/, "")`: removes every slash at the start. */
  function StripLeadingSlashes(s: string): (r: string)
    ensures |r| <= |s|
  {
    if |s| > 0 && s[0] == '/' then StripLeadingSlashes(s[1..]) else s
  }

  function Slashes(n: nat): (r: string)
    ensures |r| == n && forall i :: 0 <= i < n ==> r[i] == '/'
  {
    if n == 0 then "" else "/" + Slashes(n - 1)
  }

  /**
   * What the leading-slash replacement removes is a run of slashes, and what
   * it leaves does not start with one.
   */
  lemma {:induction false} StripLeadingSlashesFacts(s: string)
    ensures var r := StripLeadingSlashes(s);
      && s == Slashes(|s| - |r|) + r
      && (|r| == 0 || r[0] != '/')
    decreases |s|
  {
    if |s| > 0 && s[0] == '/' {
      StripLeadingSlashesFacts(s[1..]);
      var r := StripLeadingSlashes(s);
      assert s == "/" + s[1..];
    } else {
      assert s == Slashes(0) + s;
    }
  }

  /** Stripping again changes nothing. */
  lemma StripLeadingSlashesIdempotent(s: string)
    ensures StripLeadingSlashes(StripLeadingSlashes(s)) == StripLeadingSlashes(s)
  {
    StripLeadingSlashesFacts(s);
  }

  /** `getOpenSeaNftUrl`: the base without a trailing slash, a slash, and the id without leading slashes. */
  function OpenSeaNftUrl(nftId: string): string
  {
    var cleanBaseUrl := StripTrailingSlash(OpenSeaBaseUrl);
    var cleanNftId := StripLeadingSlashes(nftId);
    cleanBaseUrl + "/" + cleanNftId
  }

  /**
   * The link is the base, one slash, and the id with its leading slashes
   * removed; the part after the base never starts with a slash.
   */
  lemma OpenSeaNftUrlShape(nftId: string)
    ensures OpenSeaNftUrl(nftId) == OpenSeaBaseUrl + "/" + StripLeadingSlashes(nftId)
    ensures OpenSeaNftUrl(nftId)[..|OpenSeaBaseUrl| + 1] == OpenSeaBaseUrl + "/"
    ensures var rest := OpenSeaNftUrl(nftId)[|OpenSeaBaseUrl| + 1..];
      rest == StripLeadingSlashes(nftId) && (|rest| == 0 || rest[0] != '/')
  {
    assert OpenSeaBaseUrl[|OpenSeaBaseUrl| - 1] != '/';
    StripLeadingSlashesFacts(nftId);
  }

  /** Leading slashes on the id do not change the link. */
  lemma OpenSeaNftUrlIgnoresLeadingSlash(nftId: string)
    ensures OpenSeaNftUrl("/" + nftId) == OpenSeaNftUrl(nftId)
  {
    assert ("/" + nftId)[1..] == nftId;
  }

  /**
   * Two ids get the same link exactly when they agree once their leading
   * slashes are removed: the stripped id can be read back from the link.
   */
  lemma OpenSeaNftUrlInjective(a: string, b: string)
    ensures OpenSeaNftUrl(a) == OpenSeaNftUrl(b) <==> StripLeadingSlashes(a) == StripLeadingSlashes(b)
  {
    OpenSeaNftUrlShape(a);
    OpenSeaNftUrlShape(b);
  }

  datatype NftMetadata = NftMetadata(name: string, description: string, image: string, attributes: seq<string>)

  /**
   * `generateNftMetadata`: the given name, description and image, and no
   * attributes; the token id plays no part in the result.
   */
  function GenerateNftMetadata(nftId: string, name: string, description: string, image: string): (md: NftMetadata)
    ensures md.name == name && md.description == description && md.image == image
    ensures md.attributes == []
  {
    NftMetadata(name, description, image, [])
  }
}
