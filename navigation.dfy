/**
 * The navigation bar's avatar text: the initials of the signed-in user's
 * full name, else the first letter of the e-mail address.
 */
module Navigation {
  import opened Common
  import opened Text

  /** The signed-in user's metadata that the avatar reads. */
  datatype User = User(fullName: Option<string>, email: Option<string>)

  /** The first character of each piece, skipping empty pieces (`n[0]` is undefined there and joins as ""). */
  function Firsts(pieces: seq<string>): (r: string)
    ensures |r| <= |pieces|
    ensures (forall i :: 0 <= i < |pieces| ==> pieces[i] != "") ==> |r| == |pieces|
  {
    if pieces == [] then ""
    else
      var last := pieces[|pieces| - 1];
      Firsts(pieces[..|pieces| - 1]) + (if last == "" then "" else [last[0]])
  }

  /** `getUserInitials`. */
  function UserInitials(user: Option<User>): (r: string)
    ensures user.None? ==> r == "?"
    ensures user.Some? && Truthy(user.value.fullName) ==>
      r == Upper(Firsts(Split(user.value.fullName.value, ' ')))
    ensures user.Some? && !Truthy(user.value.fullName) && Truthy(user.value.email) ==>
      r == [UpperChar(user.value.email.value[0])]
    ensures user.Some? && !Truthy(user.value.fullName) && !Truthy(user.value.email) ==> r == "U"
    ensures user.Some? && Truthy(user.value.fullName) ==> |r| <= Count(user.value.fullName.value, ' ') + 1
  {
    match user
    case None => "?"
    case Some(u) =>
      if Truthy(u.fullName) then
        SplitCount(u.fullName.value, ' ');
        Upper(Firsts(Split(u.fullName.value, ' ')))
      else
        var initial := if u.email.Some? && u.email.value != "" then Upper([u.email.value[0]]) else "";
        if initial != "" then initial else "U"
  }

  /** The first characters of a list of words. */
  function Heads(words: seq<string>): (r: string)
    requires forall i :: 0 <= i < |words| ==> words[i] != ""
    ensures |r| == |words| && forall i :: 0 <= i < |words| ==> r[i] == words[i][0]
  {
    if words == [] then "" else Heads(words[..|words| - 1]) + [words[|words| - 1][0]]
  }

  /** For non-empty pieces, `Firsts` takes each piece's first character. */
  lemma {:induction false} FirstsOfWords(words: seq<string>)
    requires forall i :: 0 <= i < |words| ==> words[i] != ""
    ensures Firsts(words) == Heads(words)
  {
    if words != [] {
      FirstsOfWords(words[..|words| - 1]);
    }
  }

  /** A full name of words separated by single spaces gives the uppercased first letter of every word, in order. */
  lemma InitialsOfWords(words: seq<string>, email: Option<string>)
    requires |words| >= 1
    requires forall i :: 0 <= i < |words| ==> words[i] != "" && ' ' !in words[i]
    ensures UserInitials(Some(User(Some(Join(words, " ")), email))) == Upper(Heads(words))
  {
    assert Join(words, " ") != "";
    SplitJoin(words, ' ');
    FirstsOfWords(words);
  }

  /** Two consecutive spaces give an empty piece, which contributes no initial. */
  lemma DoubleSpaceSkipped(a: string, b: string)
    requires a != "" && b != "" && ' ' !in a && ' ' !in b
    ensures Firsts(Split(a + "  " + b, ' ')) == [a[0], b[0]]
  {
    var words := [a, "", b];
    JoinThree(a, b);
    SplitJoin(words, ' ');
    FirstsThree(a, b);
  }

  lemma JoinThree(a: string, b: string)
    ensures Join([a, "", b], " ") == a + "  " + b
  {
    var words := [a, "", b];
    assert words[1..] == ["", b];
    assert ["", b][1..] == [b];
    assert Join(["", b], " ") == "" + " " + b;
    assert Join(words, " ") == a + " " + ("" + " " + b);
    assert a + " " + ("" + " " + b) == a + "  " + b;
  }

  lemma FirstsThree(a: string, b: string)
    requires a != "" && b != ""
    ensures Firsts([a, "", b]) == [a[0], b[0]]
  {
    assert [a, "", b][..2] == [a, ""];
    assert [a, ""][..1] == [a];
    assert [a][..0] == [];
    assert Firsts([a]) == [a[0]];
    assert Firsts([a, ""]) == [a[0]];
    assert Firsts([a, "", b]) == Firsts([a, ""]) + [b[0]];
  }
}
