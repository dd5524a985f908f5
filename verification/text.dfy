/**
 Lower-casing of tag strings. The backend calls Python's `str.lower()`; this model
 lower-cases the ASCII letters `A`..`Z` and leaves every other character alone.
 */
module Text {

  predicate IsUpper(c: char) {
    'A' <= c <= 'Z'
  }

  /** The lower-case form of one character. */
  function LowerChar(c: char): (r: char)
    ensures !IsUpper(r)
    ensures !IsUpper(c) ==> r == c
    ensures IsUpper(c) ==> r as int == c as int + ('a' as int - 'A' as int)
  {
    if IsUpper(c) then (c as int + ('a' as int - 'A' as int)) as char else c
  }

  /** A string with no upper-case letter in it. */
  predicate IsLower(s: string) {
    forall i :: 0 <= i < |s| ==> !IsUpper(s[i])
  }

  /** The lower-case form of a string: same length, each character lower-cased in place. */
  function Lower(s: string): (r: string)
    ensures |r| == |s|
    ensures IsLower(r)
    ensures forall i :: 0 <= i < |s| ==> r[i] == LowerChar(s[i])
  {
    seq(|s|, i requires 0 <= i < |s| => LowerChar(s[i]))
  }

  /** Lower-casing changes a string exactly when it holds an upper-case letter. */
  lemma LowerFixesExactlyLowerStrings(s: string)
    ensures Lower(s) == s <==> IsLower(s)
  {
    if IsLower(s) {
      assert forall i :: 0 <= i < |s| ==> Lower(s)[i] == s[i];
    }
  }

  /** Every tag of a list is lower case. */
  predicate AllLower(tags: seq<string>) {
    forall i :: 0 <= i < |tags| ==> IsLower(tags[i])
  }

  /** Element-wise lower-casing of a tag list, as both the create and the update endpoint do. */
  function LowerTags(tags: seq<string>): (r: seq<string>)
    ensures |r| == |tags|
    ensures AllLower(r)
    ensures forall i :: 0 <= i < |tags| ==> r[i] == Lower(tags[i])
  {
    seq(|tags|, i requires 0 <= i < |tags| => Lower(tags[i]))
  }

  /** A tag list is left unchanged by normalisation exactly when it is already lower case. */
  lemma LowerTagsFixesExactlyLowerLists(tags: seq<string>)
    ensures LowerTags(tags) == tags <==> AllLower(tags)
  {
    if AllLower(tags) {
      forall i | 0 <= i < |tags|
        ensures LowerTags(tags)[i] == tags[i]
      {
        LowerFixesExactlyLowerStrings(tags[i]);
      }
    }
  }

  /** Normalising an already normalised tag list changes nothing. */
  lemma LowerTagsIdempotent(tags: seq<string>)
    ensures LowerTags(LowerTags(tags)) == LowerTags(tags)
  {
    LowerTagsFixesExactlyLowerLists(LowerTags(tags));
  }

  /** The mixed-case example of the tag normalisation: `["Test", "DEBUG"]` is stored as `["test", "debug"]`. */
  lemma LowerTagsExample()
    ensures LowerTags(["Test", "DEBUG"]) == ["test", "debug"]
  {
    assert Lower("Test") == "test";
    assert Lower("DEBUG") == "debug";
  }
}
