/** The one pure helper of the contracts API: turning an image data URL into its bare base64 text. */
module ContractsApi {
  import opened Text

  const ImagePrefix := "data:image"

  /** `stripBase64Prefix(value)`. */
  function StripBase64Prefix(value: string): (r: string)
    ensures |r| <= |value| && r == value[|value| - |r|..]
  {
    var comma := IndexOf(value, ',');
    if StartsWith(value, ImagePrefix) && comma != -1 then value[comma + 1..] else value
  }

  /** An image data URL loses everything up to and including its first comma. */
  lemma StripDataUrl(header: string, payload: string)
    requires StartsWith(header + "," + payload, ImagePrefix) && ',' !in header
    ensures StripBase64Prefix(header + "," + payload) == payload
  {
    assert header + "," + payload == header + ("," + payload);
    IndexOfAfterFree(header, "," + payload, ',');
    assert (header + "," + payload)[|header| + 1..] == payload;
  }

  /** Text that does not start with "data:image", or that has no comma, comes back unchanged. */
  lemma StripKeepsOther(value: string)
    ensures !StartsWith(value, ImagePrefix) ==> StripBase64Prefix(value) == value
    ensures ',' !in value ==> StripBase64Prefix(value) == value
  {
    if ',' !in value {
      assert IndexOf(value, ',') == -1;
    }
  }

  /** The result is cut off either at the first comma or not at all. */
  lemma StripCutsAtFirstComma(value: string)
    ensures StripBase64Prefix(value) == value
      || (StartsWith(value, ImagePrefix)
          && exists i :: 0 <= i < |value| && value[i] == ',' && ',' !in value[..i] && StripBase64Prefix(value) == value[i + 1..])
  {
    var comma := IndexOf(value, ',');
    if StartsWith(value, ImagePrefix) && comma != -1 {
      assert ',' !in value[..comma];
    }
  }

  /** Stripping a bare payload (no comma) a second time changes nothing. */
  lemma StripOnce(header: string, payload: string)
    requires StartsWith(header + "," + payload, ImagePrefix) && ',' !in header && ',' !in payload
    ensures StripBase64Prefix(StripBase64Prefix(header + "," + payload)) == payload
  {
    StripDataUrl(header, payload);
    StripKeepsOther(payload);
  }
}
