/**
 * `Picture2Text.to_internal_value`, the image field of the recipe serializers:
 * a string of the form `data:image/<type>;base64,<payload>` (a `data:` URL in
 * the syntax of section 3 of RFC 2397) is cut at `;base64,` into a header and a
 * payload; the file extension is the header's text after its last `/`, and the
 * file is named `temp.<extension>`. Any other input is handed on unchanged.
 * The two serializer modules of the repository hold this class line for line
 * identical, so it is modelled once.
 */
module ImageField {
  import opened Wrappers
  import opened Text

  const DataImagePrefix := "data:image"
  const Base64Marker := ";base64,"
  const TempPrefix := "temp."

  /** What a client sends for the image field: a string, or some other value. */
  datatype ImageData = Str(s: string) | Other(handle: int)

  /**
   * What is passed on to the framework's image field: the input itself, or a
   * named file whose content is the (still encoded) payload.
   */
  datatype Delegated = Unchanged(data: ImageData) | Content(name: string, encoded: string)

  /** The `ValueError` of `format, imgstr = parts` when `parts` has `got != 2` items. */
  datatype UnpackError = UnpackError(got: nat)

  /** `isinstance(data, str) and data.startswith('data:image')`. */
  predicate IsDataImage(data: ImageData) {
    data.Str? && DataImagePrefix <= data.s
  }

  /** `format.split('/')[-1]`. */
  function Extension(header: string): string {
    Last(Split(header, "/"))
  }

  function ToInternalValue(data: ImageData): (r: Result<Delegated, UnpackError>)
    ensures r == Success(Unchanged(data)) <==> !IsDataImage(data)
    ensures r.Failure? ==> r.error.got != 2
    ensures r.Success? && r.value.Content? ==> TempPrefix <= r.value.name
  {
    if IsDataImage(data) then
      var parts := Split(data.s, Base64Marker);
      if |parts| != 2 then Failure(UnpackError(|parts|))
      else Success(Content(TempPrefix + Extension(parts[0]), parts[1]))
    else
      Success(Unchanged(data))
  }

  /** The extension is the header's text after its last `/` (all of it when there is none). */
  lemma ExtensionAfterLastSlash(header: string)
    ensures var ext := Extension(header);
      && (forall i :: 0 <= i < |ext| ==> ext[i] != '/')
      && |ext| <= |header| && header[|header| - |ext|..] == ext
      && (ext == header || header[|header| - |ext| - 1] == '/')
  {
    var parts := Split(header, ['/']);
    LastSegment(header, '/');
    assert Extension(header) == Last(parts);
  }

  /** `;base64,` cannot overlap itself, so a string holding it once splits in two there. */
  lemma MarkerSplitsOnce(a: string, b: string)
    requires !Contains(a, Base64Marker) && !Contains(b, Base64Marker)
    ensures Split(a + Base64Marker + b, Base64Marker) == [a, b]
  {
    var m := Base64Marker;
    var s := a + m + b;
    forall j: nat | j < |a| ensures !OccursAt(s, m, j) {
      if j + |m| <= |a| {
        assert s[j..j + |m|] == a[j..j + |m|];
        assert !OccursAt(a, m, j);
      } else if j + |m| <= |s| {
        assert s[j..j + |m|][|a| - j] == s[|a|] == ';';
        assert m[|a| - j] in m[1..];
        assert ';' !in m[1..];
      }
    }
    assert s[|a|..|a| + |m|] == m;
    assert OccursAt(s, m, |a|);
    assert Find(s, m, 0) == Some(|a|);
    assert s[|a| + |m|..] == b;
  }

  /** A decoded data string held the marker exactly once and kept the `data:image` prefix in its header. */
  lemma DecodedHadOneMarker(s: string, name: string, encoded: string)
    requires ToInternalValue(Str(s)) == Success(Content(name, encoded))
    ensures exists header ::
      && s == header + Base64Marker + encoded
      && DataImagePrefix <= header
      && !Contains(header, Base64Marker) && !Contains(encoded, Base64Marker)
      && name == TempPrefix + Extension(header)
  {
    var parts := Split(s, Base64Marker);
    var header := parts[0];
    assert parts[1..] == [encoded];
    assert s == header + Base64Marker + encoded;
    assert header in parts && encoded in parts;
    assert s[|header|] == ';';
    assert ';' !in DataImagePrefix;
    assert forall i :: 0 <= i < |DataImagePrefix| ==> s[i] == DataImagePrefix[i] != ';';
    assert header[..|DataImagePrefix|] == s[..|DataImagePrefix|];
  }

  /** Conversely, a data string holding the marker exactly once is decoded. */
  lemma OneMarkerDecodes(header: string, encoded: string)
    requires IsDataImage(Str(header + Base64Marker + encoded))
    requires !Contains(header, Base64Marker) && !Contains(encoded, Base64Marker)
    ensures ToInternalValue(Str(header + Base64Marker + encoded))
         == Success(Content(TempPrefix + Extension(header), encoded))
  {
    MarkerSplitsOnce(header, encoded);
  }

  /** A data string without the marker fails: one value to unpack where two are needed. */
  lemma NoMarkerFails(s: string)
    requires IsDataImage(Str(s)) && !Contains(s, Base64Marker)
    ensures ToInternalValue(Str(s)) == Failure(UnpackError(1))
  {
  }
}
