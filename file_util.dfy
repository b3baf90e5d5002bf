/**
 * File-name helpers of the upload path: the extension of a name, a fresh
 * stored name that keeps it, and the extension whitelist. The random UUID
 * is a parameter.
 */
module FileNames {
  import opened Wrappers
  import opened JavaText

  /** `getFileExtension`: the lower-cased text after the last dot; "" for a
      null or empty name, a name without a dot, or a name ending in a dot. */
  function GetFileExtension(filename: Option<string>): string {
    if filename.None? || |filename.value| == 0 then ""
    else
      var f := filename.value;
      var lastDot := LastIndexOf(f, '.');
      if lastDot == -1 || lastDot == |f| - 1 then "" else ToLower(f[lastDot + 1..])
  }

  /** `generateUniqueFilename`: the UUID, with the original extension appended after a dot when there is one. */
  function GenerateUniqueFilename(originalFilename: Option<string>, uuid: string): string {
    var extension := GetFileExtension(originalFilename);
    if extension == "" then uuid else uuid + "." + extension
  }

  const ALLOWED_TYPES: seq<string> := [
    "txt", "log", "json", "xml", "csv", "md", "yaml", "yml",
    "java", "js", "py", "go", "html", "css", "sql", "sh",
    "properties", "conf", "config", "ini"]

  /** `isAllowedFileType`: scans the whitelist for the name's extension. */
  method IsAllowedFileType(filename: Option<string>) returns (allowed: bool)
    ensures allowed <==> GetFileExtension(filename) in ALLOWED_TYPES
  {
    var extension := GetFileExtension(filename);
    var i := 0;
    while i < |ALLOWED_TYPES|
      invariant 0 <= i <= |ALLOWED_TYPES|
      invariant extension !in ALLOWED_TYPES[..i]
    {
      if ALLOWED_TYPES[i] == extension {
        return true;
      }
      i := i + 1;
    }
    return false;
  }

  // -------------------------------------------------------------- lemmas

  /** The extension is empty exactly in the four cases the code lists. */
  lemma ExtensionEmptyCases(filename: Option<string>)
    ensures GetFileExtension(filename) == "" <==>
      filename.None? || filename.value == "" || '.' !in filename.value
      || filename.value[|filename.value| - 1] == '.'
  {
    if filename.Some? && filename.value != "" {
      var f := filename.value;
      var i := LastIndexOf(f, '.');
      if '.' in f {
        var k :| 0 <= k < |f| && f[k] == '.';
        assert i >= k;
      }
      if f[|f| - 1] == '.' {
        assert i == |f| - 1;
      }
    }
  }

  /** A non-empty extension is the lower-cased text after a dot that has no dot after it. */
  lemma ExtensionAfterLastDot(filename: Option<string>)
    requires GetFileExtension(filename) != ""
    ensures exists i :: (0 <= i < |filename.value| && filename.value[i] == '.' && '.' !in filename.value[i + 1..]
      && GetFileExtension(filename) == ToLower(filename.value[i + 1..]))
  {
    var f := filename.value;
    var i := LastIndexOf(f, '.');
    assert '.' !in f[i + 1..];
  }

  /** An extension never holds a dot. */
  lemma ExtensionHasNoDot(filename: Option<string>)
    ensures '.' !in GetFileExtension(filename)
  {
    var e := GetFileExtension(filename);
    if e != "" {
      var f := filename.value;
      var i := LastIndexOf(f, '.');
      forall k | 0 <= k < |e| ensures e[k] != '.' {
        assert f[i + 1..][k] == f[i + 1 + k];
      }
    }
  }

  /** A leading dot counts: ".bashrc" has the extension "bashrc". */
  lemma LeadingDotCounts(rest: string)
    requires rest != "" && '.' !in rest
    ensures GetFileExtension(Some("." + rest)) == ToLower(rest)
  {
    LastIndexOfAfter(".", rest, '.');
  }

  /** `lastIndexOf` of a char that does not occur in the tail finds it in the head. */
  lemma LastIndexOfAfter(a: string, b: string, c: char)
    requires c !in b && c in a
    ensures LastIndexOf(a + b, c) == LastIndexOf(a, c)
  {
    var i := LastIndexOf(a + b, c);
    var k :| 0 <= k < |a| && a[k] == c;
    assert (a + b)[k] == c;
    assert i < |a|;
    var j := LastIndexOf(a, c);
    assert (a + b)[j] == c;
    assert (a + b)[i] == a[i];
  }

  /** Lower-casing keeps every dot where it is, so it does not move the last dot. */
  lemma LastDotUnderLower(s: string)
    ensures LastIndexOf(ToLower(s), '.') == LastIndexOf(s, '.')
  {
    var i := LastIndexOf(s, '.');
    var j := LastIndexOf(ToLower(s), '.');
    if i >= 0 {
      assert ToLower(s)[i] == '.';
    }
    if j >= 0 {
      assert LowerChar(s[j]) == '.';
    }
  }

  /** Extensions are compared case-insensitively: lower-casing the name changes nothing. */
  lemma ExtensionCaseInsensitive(s: string)
    ensures GetFileExtension(Some(ToLower(s))) == GetFileExtension(Some(s))
  {
    var t := ToLower(s);
    LastDotUnderLower(s);
    var i := LastIndexOf(s, '.');
    assert |t| == |s|;
    if s != "" && i != -1 && i != |s| - 1 {
      var tail := s[i + 1..];
      ToLowerSlice(s, i + 1);
      assert t[i + 1..] == ToLower(tail);
      ToLowerIdempotent(tail);
      assert GetFileExtension(Some(t)) == ToLower(t[i + 1..]);
    }
  }

  /** An extension is already lower case. */
  lemma ExtensionIsLower(filename: Option<string>)
    ensures ToLower(GetFileExtension(filename)) == GetFileExtension(filename)
  {
    if GetFileExtension(filename) != "" {
      var f := filename.value;
      ToLowerIdempotent(f[LastIndexOf(f, '.') + 1..]);
    }
  }

  /** Appending "." and a dot-free lower-case extension to a dot-free base gives that extension back. */
  lemma ExtensionOfJoined(base: string, e: string)
    requires '.' !in base && '.' !in e && e != "" && ToLower(e) == e
    ensures GetFileExtension(Some(base + "." + e)) == e
  {
    var head := base + ".";
    var name := base + "." + e;
    assert name == head + e;
    LastIndexOfAfter(head, e, '.');
    assert LastIndexOf(head, '.') == |base|;
    assert name[|base| + 1..] == e;
  }

  /** With a dot-free UUID the stored name keeps the original's extension,
      and is exactly the UUID when there is none. */
  lemma UniqueFilenameKeepsExtension(originalFilename: Option<string>, uuid: string)
    requires '.' !in uuid
    ensures GetFileExtension(Some(GenerateUniqueFilename(originalFilename, uuid))) == GetFileExtension(originalFilename)
    ensures GetFileExtension(originalFilename) == "" ==> GenerateUniqueFilename(originalFilename, uuid) == uuid
  {
    var e := GetFileExtension(originalFilename);
    if e == "" {
      ExtensionEmptyCases(Some(uuid));
    } else {
      ExtensionHasNoDot(originalFilename);
      ExtensionIsLower(originalFilename);
      ExtensionOfJoined(uuid, e);
    }
  }

  /** The whitelist check ignores case and rejects a name without an extension. */
  lemma AllowedIgnoresCase(s: string)
    ensures GetFileExtension(Some(ToLower(s))) in ALLOWED_TYPES <==> GetFileExtension(Some(s)) in ALLOWED_TYPES
    ensures '.' !in s ==> GetFileExtension(Some(s)) !in ALLOWED_TYPES
  {
    ExtensionCaseInsensitive(s);
    ExtensionEmptyCases(Some(s));
  }
}
