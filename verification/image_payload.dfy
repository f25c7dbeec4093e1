/**
 * Normalising an image reference into a MIME type and a base64 payload
 * (services/geminiService.ts, `cleanBase64`, `getMimeType`, `prepareImage`).
 *
 * Inline images are data URLs as in section 3 of RFC 2397, of which only the
 * restricted form `data:image/<png|jpeg|jpg|webp>;base64,<payload>` is
 * recognised, and only at the very start of the string.
 */
module ImagePayload {
  import opened Wrappers
  import opened StoreTypes
  import opened Text

  /** The alternatives of the header pattern, in the order the pattern lists them. */
  const Subtypes: seq<string> := ["png", "jpeg", "jpg", "webp"]

  /** The MIME types `GetMimeType` can answer. */
  const MimeTypes: set<string> := {"image/png", "image/jpeg", "image/jpg", "image/webp"}

  const DefaultMimeType: string := "image/jpeg"

  /** The marker whose presence anywhere in the string makes it count as a data URL. */
  const Base64Marker: string := "base64,"

  /** The prefix that marks a remote address. */
  const RemotePrefix: string := "http"

  /** Every failure of the remote branch (bad status, read error, network error) becomes this one message. */
  const RemoteImageMessage: string :=
    "No se pudo procesar la imagen " +
    "del producto (URL remota). " +
    "Intenta descargar la imagen " +
    "y subirla manualmente."

  /** The header the pattern recognises for a subtype: `data:image/<subtype>;base64,`. */
  function Header(subtype: string): string
  {
    "data:image/" + subtype + ";" + Base64Marker
  }

  /** The first of the alternatives `alts`, tried in order, whose header starts `s`. */
  function FirstMatch(alts: seq<string>, s: string): (m: Option<string>)
    ensures m.Some? ==> m.value in alts && Header(m.value) <= s
    ensures m.None? ==> forall t <- alts :: !(Header(t) <= s)
  {
    if alts == [] then None
    else if Header(alts[0]) <= s then Some(alts[0])
    else FirstMatch(alts[1..], s)
  }

  /** The alternatives are tried in order: the match is the earliest alternative whose header starts `s`. */
  lemma {:induction false} FirstMatchEarliest(alts: seq<string>, s: string, k: nat)
    requires k < |alts| && Header(alts[k]) <= s
    requires forall j :: 0 <= j < k ==> !(Header(alts[j]) <= s)
    ensures FirstMatch(alts, s) == Some(alts[k])
  {
    if k > 0 {
      assert !(Header(alts[0]) <= s);
      forall j | 0 <= j < k - 1
        ensures !(Header(alts[1..][j]) <= s)
      {
        assert alts[1..][j] == alts[j + 1];
      }
      FirstMatchEarliest(alts[1..], s, k - 1);
    }
  }

  /** The subtype captured by the anchored pattern, or `None` when `s` does not start with a recognised header. */
  function MatchHeader(s: string): (m: Option<string>)
    ensures m.Some? ==> m.value in Subtypes && Header(m.value) <= s
    ensures m.None? ==> forall t <- Subtypes :: !(Header(t) <= s)
  {
    FirstMatch(Subtypes, s)
  }

  /** No string starts with two different recognised headers, so the order of the alternatives is immaterial. */
  lemma HeadersExclusive(s: string, t: string, u: string)
    requires t in Subtypes && u in Subtypes
    requires Header(t) <= s && Header(u) <= s
    ensures t == u
  {
    assert Header(t)[11] == s[11] == Header(u)[11];
    assert Header(t)[13] == s[13] == Header(u)[13];
  }

  /** A recognised header followed by any payload is matched, and its subtype captured. */
  lemma MatchHeaderOf(t: string, payload: string)
    requires t in Subtypes
    ensures MatchHeader(Header(t) + payload) == Some(t)
  {
    var s := Header(t) + payload;
    assert Header(t) <= s;
    HeadersExclusive(s, t, MatchHeader(s).value);
  }

  /** `cleanBase64`: drop the recognised header at the start of `s`, if there is one. */
  function CleanBase64(s: string): (r: string)
    ensures MatchHeader(s).Some? ==> s == Header(MatchHeader(s).value) + r
    ensures MatchHeader(s).None? ==> r == s
  {
    match MatchHeader(s)
    case Some(t) => s[|Header(t)|..]
    case None => s
  }

  lemma MimeTypeOfSubtype(t: string)
    requires t in Subtypes
    ensures "image/" + t in MimeTypes
  {
    assert "image/" + "png" == "image/png";
    assert "image/" + "jpeg" == "image/jpeg";
    assert "image/" + "jpg" == "image/jpg";
    assert "image/" + "webp" == "image/webp";
  }

  /** `getMimeType`: the MIME type named by the recognised header, `image/jpeg` when there is none. */
  function GetMimeType(s: string): (r: string)
    ensures r in MimeTypes
    ensures MatchHeader(s).None? ==> r == DefaultMimeType
  {
    match MatchHeader(s)
    case Some(t) =>
      MimeTypeOfSubtype(t);
      "image/" + t
    case None => DefaultMimeType
  }

  /** Exactly one header is removed: whatever follows it, even another header, is kept. */
  lemma CleanBase64OfHeader(t: string, payload: string)
    requires t in Subtypes
    ensures CleanBase64(Header(t) + payload) == payload
  {
    MatchHeaderOf(t, payload);
  }

  /** The MIME type is `image/` followed by the subtype exactly as written (`jpg` stays `image/jpg`). */
  lemma GetMimeTypeOfHeader(t: string, payload: string)
    requires t in Subtypes
    ensures GetMimeType(Header(t) + payload) == "image/" + t
  {
    MatchHeaderOf(t, payload);
  }

  /** An image as sent to the model: a MIME type and a base64 payload. */
  datatype InlineImage = InlineImage(mimeType: string, data: string)

  /**
   * What fetching a remote address and reading the body back as a data URL
   * gives: the data URL, or a failure of any of those steps.
   */
  datatype FetchOutcome = Loaded(dataUrl: string) | FetchFailed

  /**
   * The tail of `prepareImage`, once the string is local: without the
   * `base64,` marker it is raw JPEG data; otherwise the header is parsed.
   * The payload is always a suffix of the input.
   */
  function Normalize(s: string): (img: InlineImage)
    ensures img.mimeType in MimeTypes
    ensures |img.data| <= |s| && s[|s| - |img.data|..] == img.data
    ensures !Includes(s, Base64Marker) ==> img == InlineImage(DefaultMimeType, s)
  {
    if !Includes(s, Base64Marker) then InlineImage(DefaultMimeType, s)
    else InlineImage(GetMimeType(s), CleanBase64(s))
  }

  /**
   * `prepareImage`: a string starting with `http` is fetched first (through
   * `fetch`, the network and browser reader) and the data URL it yields is
   * normalised; any other string is normalised directly.
   */
  function PrepareImage(source: string, fetch: string -> FetchOutcome): (r: Result<InlineImage, Thrown>)
    ensures r.Err? ==> RemotePrefix <= source && r.error == Error(RemoteImageMessage)
  {
    if RemotePrefix <= source then
      match fetch(source)
      case Loaded(dataUrl) => Ok(Normalize(dataUrl))
      case FetchFailed => Err(Error(RemoteImageMessage))
    else
      Ok(Normalize(source))
  }

  /** Round trip: a data URL with a recognised header splits into its MIME type and its payload. */
  lemma PrepareImageRoundTrip(t: string, payload: string, fetch: string -> FetchOutcome)
    requires t in Subtypes
    ensures PrepareImage(Header(t) + payload, fetch) == Ok(InlineImage("image/" + t, payload))
  {
    var s := Header(t) + payload;
    assert !(RemotePrefix <= s) by { assert s[0] == 'd'; }
    assert OccursAt(s, Base64Marker, |Header(t)| - |Base64Marker|);
    MatchHeaderOf(t, payload);
  }

  /** A local string without the `base64,` marker anywhere is raw JPEG data, kept whole. */
  lemma PrepareImageRaw(s: string, fetch: string -> FetchOutcome)
    requires !(RemotePrefix <= s)
    requires forall i :: !OccursAt(s, Base64Marker, i)
    ensures PrepareImage(s, fetch) == Ok(InlineImage(DefaultMimeType, s))
  {
  }

  /**
   * A local string that has the marker but no recognised header at its start
   * is labelled JPEG and keeps its header in the payload.
   */
  lemma PrepareImageUnrecognised(s: string, fetch: string -> FetchOutcome)
    requires !(RemotePrefix <= s)
    requires forall t <- Subtypes :: !(Header(t) <= s)
    ensures PrepareImage(s, fetch) == Ok(InlineImage(DefaultMimeType, s))
  {
  }

  /** For instance, a GIF data URL passes through whole, labelled JPEG. */
  lemma PrepareImageGif(payload: string, fetch: string -> FetchOutcome)
    ensures PrepareImage("data:image/gif;base64," + payload, fetch)
         == Ok(InlineImage(DefaultMimeType, "data:image/gif;base64," + payload))
  {
    var s := "data:image/gif;base64," + payload;
    assert s[0] == 'd' && s[11] == 'g';
    forall t <- Subtypes ensures !(Header(t) <= s) {
      assert Header(t)[11] != 'g';
    }
    PrepareImageUnrecognised(s, fetch);
  }

  /**
   * A remote address whose fetch succeeds is treated exactly like the data
   * URL it was read into; one whose fetch fails gives the single remote-image
   * error.
   */
  lemma PrepareImageRemote(source: string, fetch: string -> FetchOutcome)
    requires RemotePrefix <= source
    ensures fetch(source).FetchFailed? ==> PrepareImage(source, fetch) == Err(Error(RemoteImageMessage))
    ensures fetch(source).Loaded? ==> PrepareImage(source, fetch) == Ok(Normalize(fetch(source).dataUrl))
  {
  }
}
