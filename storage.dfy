/**
 * The storage key of the composite: the original object's key with
 * "-logo" inserted before its extension, and the address the composite
 * is then published under. Parsing the S3 URL, encoding the image and the
 * upload itself are not modelled.
 */
module Storage {
  import opened Common

  /** Position of the last '.' of s, if any. */
  function LastDot(s: string): (r: Option<nat>)
    ensures r.Some? ==> r.value < |s| && s[r.value] == '.' && forall j :: r.value < j < |s| ==> s[j] != '.'
    ensures r.None? ==> forall j :: 0 <= j < |s| ==> s[j] != '.'
    decreases |s|
  {
    if s == [] then None
    else if s[|s| - 1] == '.' then Some(|s| - 1)
    else LastDot(s[..|s| - 1])
  }

  /** The result of `key.rsplit('.', 1)`: the part before the last dot, and the part after it if there is a dot. */
  datatype KeyParts = KeyParts(stem: string, extension: Option<string>)

  function SplitLastDot(key: string): (p: KeyParts)
    ensures p.extension.None? ==> p.stem == key && '.' !in key
    ensures p.extension.Some? ==> key == p.stem + "." + p.extension.value && '.' !in p.extension.value
  {
    match LastDot(key)
    case None => KeyParts(key, None)
    case Some(i) =>
      assert key == key[..i] + "." + key[i + 1..];
      KeyParts(key[..i], Some(key[i + 1..]))
  }

  /** Splitting a stem, a dot and a dot-free extension gives them back. */
  lemma SplitJoin(stem: string, extension: string)
    requires '.' !in extension
    ensures SplitLastDot(stem + "." + extension) == KeyParts(stem, Some(extension))
  {
    var key := stem + "." + extension;
    assert key[|stem|] == '.';
    var i := LastDot(key).value;
    assert forall j :: |stem| < j < |key| ==> key[j] == extension[j - |stem| - 1];
    assert key[..i] == stem;
    assert key[i + 1..] == extension;
  }

  /**
   * The key the composite is stored under: "-logo" inserted before the
   * text after the last dot, or "-logo.png" appended to a key without a dot.
   */
  function LogoKey(key: string): string {
    var parts := SplitLastDot(key);
    match parts.extension
    case Some(ext) => parts.stem + "-logo." + ext
    case None => key + "-logo.png"
  }

  /**
   * Splitting the new key again gives the old stem followed by "-logo",
   * and the old extension ("png" when the old key had none).
   */
  lemma LogoKeySplit(key: string)
    ensures var before := SplitLastDot(key);
            SplitLastDot(LogoKey(key))
            == KeyParts(before.stem + "-logo", Some(if before.extension.Some? then before.extension.value else "png"))
  {
    var parts := SplitLastDot(key);
    var ext := if parts.extension.Some? then parts.extension.value else "png";
    var stem := if parts.extension.Some? then parts.stem else key;
    assert LogoKey(key) == (stem + "-logo") + "." + ext;
    SplitJoin(stem + "-logo", ext);
  }

  /** A key with one dot: "-logo" goes before the extension. */
  lemma LogoKeyExample()
    ensures LogoKey("a/b.jpg") == "a/b-logo.jpg"
  {
    assert "a/b.jpg" == "a/b" + "." + "jpg";
    SplitJoin("a/b", "jpg");
  }

  /** A key with two dots: only the last one splits. */
  lemma LogoKeyLastDotExample()
    ensures LogoKey("x.tar.gz") == "x.tar-logo.gz"
  {
    assert "x.tar.gz" == "x.tar" + "." + "gz";
    SplitJoin("x.tar", "gz");
  }

  /** A key without a dot gets a PNG extension. */
  lemma LogoKeyNoDotExample()
    ensures LogoKey("photo") == "photo-logo.png"
  {
    assert LastDot("photo") == None;
  }

  /**
   * The address returned after the upload: nothing without a bucket or a
   * key; otherwise the bucket's virtual-hosted address followed by the new key.
   */
  function UploadUrl(bucket: string, key: string): (url: Option<string>)
    ensures url.Some? <==> bucket != [] && key != []
    ensures url.Some? ==> |url.value| >= |LogoKey(key)| && url.value[|url.value| - |LogoKey(key)|..] == LogoKey(key)
  {
    if bucket == [] || key == [] then None
    else Some("https://" + bucket + ".s3.amazonaws.com/" + LogoKey(key))
  }
}
