/** The avatar initials the pages derive from a name. Most pages take the first
    letters of the first two space-separated parts; the admin user list takes the
    first and last parts of the trimmed name. Pages differ in what an empty name
    gives: nothing, "U", "D" or "DR". */
module Initials {
  import opened Text

  /** `getInitials` of the appointments, dashboard, doctors, doctor-management and
      profile pages, with the page's fallback for an empty name ("" where the page
      has none). */
  function Initials(name: string, fallback: string): (r: string)
    ensures |r| <= 2 || r == fallback
    ensures name == "" ==> r == fallback
  {
    var parts := Split(name, ' ');
    if |parts| >= 2 then Upper(FirstChar(parts[0]) + FirstChar(parts[1]))
    else
      var c := Upper(FirstChar(name));
      if c == "" then fallback else c
  }

  /** `getInitials` of the admin user list. */
  function UserInitials(name: string): (r: string)
    ensures |r| <= 2 || r == "U"
    ensures name == "" ==> r == "U"
  {
    if name == "" then "U"
    else
      var parts := Split(Trim(name), ' ');
      if |parts| >= 2 then Upper(FirstChar(parts[0]) + FirstChar(parts[|parts| - 1]))
      else Upper(FirstChar(name))
  }

  /** For a name of space-separated words, the initials are the first letters of
      the first two words, uppercased; a single word gives its first letter. */
  lemma InitialsOfWords(words: seq<string>, fallback: string)
    requires |words| >= 1 && forall k :: 0 <= k < |words| ==> words[k] != "" && NoSpace(words[k])
    ensures |words| >= 2 ==> Initials(Join(words, " "), fallback) == Upper([words[0][0], words[1][0]])
    ensures |words| == 1 ==> Initials(Join(words, " "), fallback) == Upper([words[0][0]])
  {
    SpaceFree(words);
    SplitJoin(words, ' ');
  }

  /** For a name of space-separated words, the admin list uses the first letters of
      the first and the last word. */
  lemma UserInitialsOfWords(words: seq<string>)
    requires |words| >= 1 && forall k :: 0 <= k < |words| ==> words[k] != "" && NoSpace(words[k])
    ensures |words| >= 2 ==> UserInitials(Join(words, " ")) == Upper([words[0][0], words[|words| - 1][0]])
    ensures |words| == 1 ==> UserInitials(Join(words, " ")) == Upper([words[0][0]])
  {
    var name := Join(words, " ");
    JoinedWordsUntrimmed(words);
    SpaceFree(words);
    SplitJoin(words, ' ');
    JoinBounds(words);
    if |words| >= 2 {
      UserInitialsOfParts(name, words);
    } else {
      assert name == words[0];
      assert FirstChar(name) == [words[0][0]];
    }
  }

  lemma UserInitialsOfParts(name: string, parts: seq<string>)
    requires name != "" && Split(Trim(name), ' ') == parts && |parts| >= 2
    requires parts[0] != "" && parts[|parts| - 1] != ""
    ensures UserInitials(name) == Upper([parts[0][0], parts[|parts| - 1][0]])
  {
    var last := parts[|parts| - 1];
    assert FirstChar(parts[0]) + FirstChar(last) == [parts[0][0], last[0]];
  }

  /** Joined words have no surrounding white space. */
  lemma JoinedWordsUntrimmed(words: seq<string>)
    requires |words| >= 1 && forall k :: 0 <= k < |words| ==> words[k] != "" && NoSpace(words[k])
    ensures Trim(Join(words, " ")) == Join(words, " ")
  {
    JoinBounds(words);
    var w := words[|words| - 1];
    assert !IsSpace(words[0][0]) && !IsSpace(w[|w| - 1]);
    TrimUnpadded(Join(words, " "));
  }

  lemma SpaceFree(words: seq<string>)
    requires forall k :: 0 <= k < |words| ==> NoSpace(words[k])
    ensures forall k :: 0 <= k < |words| ==> ' ' !in words[k]
  {
    assert IsSpace(' ');
  }

  /** Joined non-empty words start with the first word and end with the last. */
  lemma {:induction false} JoinBounds(words: seq<string>)
    requires |words| >= 1 && forall k :: 0 <= k < |words| ==> words[k] != ""
    ensures var s := Join(words, " "); s != [] && s[0] == words[0][0] && s[|s| - 1] == words[|words| - 1][|words[|words| - 1]| - 1]
    decreases |words|
  {
    if |words| > 1 {
      JoinBounds(words[1..]);
    }
  }
}
