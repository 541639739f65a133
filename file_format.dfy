/** The codec between a document name and the name of the file that holds it. */
module FileFormat {

  const Extension: string := ".json"

  /** `to_file_format`: the name with the extension appended. */
  function ToFileFormat(name: string): (r: string)
    ensures |r| == |name| + |Extension| && r[..|name|] == name
    ensures Contains(r, Extension)
  {
    ExtensionAtEnd(name);
    name + Extension
  }

  /** Python's `s.replace(pat, '')`: every occurrence of `pat`, found by a
      left-to-right scan that never overlaps the previous one, is dropped. */
  function RemoveAll(s: string, pat: string): (r: string)
    requires pat != []
    ensures |r| <= |s|
    decreases |s|
  {
    if |s| < |pat| then s
    else if s[..|pat|] == pat then RemoveAll(s[|pat|..], pat)
    else [s[0]] + RemoveAll(s[1..], pat)
  }

  /** `from_file_format`: every ".json" is removed, not only a trailing one. */
  function FromFileFormat(file: string): (r: string)
    ensures |r| <= |file|
    ensures !Contains(file, Extension) ==> r == file
  {
    var r := RemoveAll(file, Extension);
    if Contains(file, Extension) then r else NothingToRemove(file); r
  }

  /** A string without ".json" in it is left as it is. */
  lemma {:induction false} NothingToRemove(s: string)
    requires !Contains(s, Extension)
    ensures RemoveAll(s, Extension) == s
    decreases |s|
  {
    if |s| >= |Extension| {
      NothingToRemove(s[1..]);
      assert s == [s[0]] + s[1..];
    }
  }

  /** `pat` occurs somewhere in `s`. */
  predicate Contains(s: string, pat: string)
    decreases |s|
  {
    |pat| <= |s| && (s[..|pat|] == pat || (|s| > 0 && Contains(s[1..], pat)))
  }

  /** A name without ".json" in it survives the round trip through its file name. */
  lemma {:induction false} StripsAppendedExtension(name: string)
    requires !Contains(name, Extension)
    ensures FromFileFormat(ToFileFormat(name)) == name
  {
    var s := name + Extension;
    assert Extension == ['.', 'j', 's', 'o', 'n'];
    if name == [] {
      assert s[..5] == Extension;
      assert s[5..] == [];
    } else {
      assert s[..5] != Extension by {
        if |name| >= 5 {
          assert s[..5] == name[..5];
        } else {
          assert s[|name|] == '.';
          assert s[..5][|name|] != Extension[|name|];
        }
      }
      assert s[1..] == name[1..] + Extension;
      StripsAppendedExtension(name[1..]);
      assert name == [name[0]] + name[1..];
    }
  }

  /** Removing ".json" from a string that contains it makes it at least five characters shorter. */
  lemma {:induction false} RemovesOneOccurrence(s: string)
    requires Contains(s, Extension)
    ensures |RemoveAll(s, Extension)| <= |s| - 5
    decreases |s|
  {
    if s[..5] != Extension {
      RemovesOneOccurrence(s[1..]);
    }
  }

  /** An occurrence inside `name` and the appended extension are both removed. */
  lemma {:induction false} RemovesTwoOccurrences(name: string)
    requires Contains(name, Extension)
    ensures |RemoveAll(name + Extension, Extension)| <= |name| - 5
    decreases |name|
  {
    var s := name + Extension;
    assert s[..5] == name[..5];
    if s[..5] == Extension {
      assert s[5..] == name[5..] + Extension;
      assert Contains(s[5..], Extension) by { ExtensionAtEnd(name[5..]); }
      RemovesOneOccurrence(s[5..]);
    } else {
      assert s[1..] == name[1..] + Extension;
      RemovesTwoOccurrences(name[1..]);
    }
  }

  /** Any string followed by the extension contains it. */
  lemma {:induction false} ExtensionAtEnd(prefix: string)
    ensures Contains(prefix + Extension, Extension)
    decreases |prefix|
  {
    var s := prefix + Extension;
    if prefix != [] {
      assert s[1..] == prefix[1..] + Extension;
      ExtensionAtEnd(prefix[1..]);
    } else {
      assert s[..5] == Extension;
    }
  }

  /** The name-to-file codec round-trips exactly for the names with no ".json" inside. */
  lemma FileFormatRoundTrip(name: string)
    ensures FromFileFormat(ToFileFormat(name)) == name <==> !Contains(name, Extension)
  {
    if Contains(name, Extension) {
      RemovesTwoOccurrences(name);
    } else {
      StripsAppendedExtension(name);
    }
  }
}
