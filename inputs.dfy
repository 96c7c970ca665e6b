/** The input parts sent to the model (route.ts lines 136-145): the
    composite prompt as a text part, then, when the request carries an
    image, one inline-data part whose payload has a leading
    `data:image/<subtype>;base64,` removed. */
module Inputs {
  import opened Wrappers

  /** `InputPart` of route.ts lines 5-7. */
  datatype InputPart =
    | TextPart(text: string)
    | InlineDataPart(data: string, mimeType: string)

  const DataImage := "data:image/"
  const Base64Marker := ";base64,"
  const DefaultMimeType := "image/png"

  /** `\w` of a regular expression without the `u` flag. */
  predicate IsWordChar(c: char)
  {
    'a' <= c <= 'z' || 'A' <= c <= 'Z' || '0' <= c <= '9' || c == '_'
  }

  /** `p` is a whole match of `data:image\/\w+;base64,`. */
  predicate IsDataUriPrefix(p: string)
  {
    && |p| > |DataImage| + |Base64Marker|
    && p[..|DataImage|] == DataImage
    && p[|p| - |Base64Marker|..] == Base64Marker
    && forall i :: |DataImage| <= i < |p| - |Base64Marker| ==> IsWordChar(p[i])
  }

  /** Length of the run of word characters of `s` starting at `from`. */
  function WordRun(s: string, from: nat): (n: nat)
    requires from <= |s|
    ensures from + n <= |s|
    ensures forall i :: from <= i < from + n ==> IsWordChar(s[i])
    ensures from + n < |s| ==> !IsWordChar(s[from + n])
    decreases |s| - from
  {
    if from < |s| && IsWordChar(s[from]) then 1 + WordRun(s, from + 1) else 0
  }

  /** The length of the prefix of `s` that the anchored pattern
      `^data:image\/\w+;base64,` matches, or 0 when it does not match.
      Since `;` is not a word character, at most one prefix matches. */
  function DataUriPrefixLength(s: string): (n: nat)
    ensures n <= |s|
    ensures n > 0 ==> IsDataUriPrefix(s[..n])
    ensures forall m :: 0 <= m <= |s| && IsDataUriPrefix(s[..m]) ==> m == n
  {
    if |s| < |DataImage| || s[..|DataImage|] != DataImage then
      NoPrefixWithoutHead(s);
      0
    else
      var w := WordRun(s, |DataImage|);
      var end := |DataImage| + w;
      forall m | 0 <= m <= |s| && IsDataUriPrefix(s[..m])
        ensures m == end + |Base64Marker|
      {
        PrefixEndsRun(s, m);
      }
      if w > 0 && end + |Base64Marker| <= |s| && s[end..end + |Base64Marker|] == Base64Marker then
        assert s[..end + |Base64Marker|][end..] == s[end..end + |Base64Marker|];
        end + |Base64Marker|
      else
        assert forall m :: 0 <= m <= |s| ==> !IsDataUriPrefix(s[..m]);
        0
  }

  lemma NoPrefixWithoutHead(s: string)
    requires |s| < |DataImage| || s[..|DataImage|] != DataImage
    ensures forall m :: 0 <= m <= |s| ==> !IsDataUriPrefix(s[..m])
  {
  }

  /** A matching prefix ends exactly where the word run after
      `data:image/` stops, followed by the base64 marker. */
  lemma PrefixEndsRun(s: string, m: nat)
    requires m <= |s| && IsDataUriPrefix(s[..m])
    ensures |DataImage| <= |s|
    ensures m == |DataImage| + WordRun(s, |DataImage|) + |Base64Marker|
  {
    var p := s[..m];
    assert p[..|DataImage|] == s[..|DataImage|];
    var w := WordRun(s, |DataImage|);
    var stop := m - |Base64Marker|;
    assert p[stop] == ';';
    assert forall i :: |DataImage| <= i < stop ==> IsWordChar(s[i]) by {
      forall i | |DataImage| <= i < stop ensures IsWordChar(s[i]) {
        assert p[i] == s[i];
      }
    }
    if |DataImage| + w < stop {
      assert false;
    } else if |DataImage| + w > stop {
      assert false;
    }
  }

  /** `image.replace(/^data:image\/\w+;base64,/, "")`: the matching prefix,
      if there is one, is removed once; any other payload is unchanged. */
  function StripDataUriPrefix(image: string): (r: string)
    ensures forall m :: 0 <= m <= |image| && IsDataUriPrefix(image[..m]) ==> r == image[m..]
    ensures (forall m :: 0 <= m <= |image| ==> !IsDataUriPrefix(image[..m])) ==> r == image
  {
    image[DataUriPrefixLength(image)..]
  }

  /** Only the first prefix goes: a payload that itself starts with a
      data-URI prefix keeps it. */
  lemma StripRemovesOnePrefix(subtype: string, payload: string)
    requires subtype != [] && forall i :: 0 <= i < |subtype| ==> IsWordChar(subtype[i])
    ensures StripDataUriPrefix(DataImage + subtype + Base64Marker + payload) == payload
  {
    var p := DataImage + subtype + Base64Marker;
    var s := p + payload;
    assert s[..|p|] == p;
    forall i | |DataImage| <= i < |p| - |Base64Marker| ensures IsWordChar(p[i]) {
      assert p[i] == subtype[i - |DataImage|];
    }
    assert p[..|DataImage|] == DataImage;
    assert p[|p| - |Base64Marker|..] == Base64Marker;
    assert IsDataUriPrefix(s[..|p|]);
    assert s[|p|..] == payload;
  }

  /** A subtype with a character outside `\w` (as in `svg+xml`) does not
      match, so such a payload is forwarded with its prefix. */
  lemma StripKeepsOtherSubtypes()
    ensures StripDataUriPrefix("data:image/svg+xml;base64,QQ==") == "data:image/svg+xml;base64,QQ=="
  {
    var s := "data:image/svg+xml;base64,QQ==";
    assert s[..|DataImage|] == DataImage;
    assert WordRun(s, 14) == 0;
    assert WordRun(s, |DataImage|) == 3;
    assert DataUriPrefixLength(s) == 0;
  }

  /** The `inputs` list (route.ts lines 136-145), grown by a push. */
  method BuildInputs(composite: string, image: Option<string>, mimeType: Option<string>)
    returns (inputs: seq<InputPart>)
    ensures |inputs| == (if Truthy(image) then 2 else 1)
    ensures inputs[0] == TextPart(composite)
    ensures Truthy(image) ==>
      inputs[1] == InlineDataPart(StripDataUriPrefix(image.value),
                                  if Truthy(mimeType) then mimeType.value else DefaultMimeType)
  {
    inputs := [TextPart(composite)];
    if Truthy(image) {
      var mime := if Truthy(mimeType) then mimeType.value else DefaultMimeType;
      inputs := inputs + [InlineDataPart(StripDataUriPrefix(image.value), mime)];
    }
  }
}
