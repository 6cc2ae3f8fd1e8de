/** The avatar fallback text shown when a user has no picture. The navbar
    and the profile page compute it with the same expression, so it is
    defined once here. */
module Avatar {
  import opened Common

  /** What rendering the fallback produces: a text, or the TypeError that
      `"".[0].toUpperCase()` raises when the e-mail address is empty. */
  datatype Fallback = Shown(text: string) | Throws

  /** `getAvatarFallback`: `fullName` is `profile?.full_name` and `email`
      is `user?.email` (None when there is no user or no address). */
  function AvatarFallback(fullName: Option<string>, email: Option<string>): (r: Fallback)
    ensures Truthy(fullName) ==> r == Shown(Upper(WordStarts(fullName.value, true)))
    ensures !Truthy(fullName) && email.None? ==> r == Shown("U")
    ensures !Truthy(fullName) && Truthy(email) ==> r == Shown([UpperChar(email.value[0])])
    ensures r.Throws? <==> !Truthy(fullName) && email == Some("")
  {
    if Truthy(fullName) then
      FirstCharsOfSplit(fullName.value);
      Shown(Upper(FirstChars(SplitOnSpace(fullName.value))))
    else if email.None? then Shown("U")
    else if email.value == "" then Throws
    else Shown([UpperChar(email.value[0])])
  }

  /** A one-word name gives its own first letter, upper-cased. */
  lemma {:induction false} SingleWordInitial(name: string)
    requires forall i :: 0 <= i < |name| ==> name[i] != ' '
    requires name != ""
    ensures AvatarFallback(Some(name), None) == Shown([UpperChar(name[0])])
  {
    NoSpaceWordStarts(name[1..]);
    assert WordStarts(name, true) == [name[0]] + WordStarts(name[1..], false);
  }

  /** "first last" gives the two upper-cased initials, whatever the e-mail. */
  lemma {:induction false} TwoWordInitials(first: string, last: string, email: Option<string>)
    requires first != "" && last != ""
    requires forall i :: 0 <= i < |first| ==> first[i] != ' '
    requires forall i :: 0 <= i < |last| ==> last[i] != ' '
    ensures AvatarFallback(Some(first + " " + last), email)
         == Shown([UpperChar(first[0]), UpperChar(last[0])])
  {
    var name := first + " " + last;
    NoSpaceWordStarts(first[1..]);
    NoSpaceWordStarts(last[1..]);
    WordStartsAppend(first[1..], " " + last, false);
    assert name[1..] == first[1..] + (" " + last);
    assert WordStarts(" " + last, false) == WordStarts(last, true);
    assert WordStarts(last, true) == [last[0]] + WordStarts(last[1..], false);
    assert WordStarts(name, true) == [first[0]] + WordStarts(name[1..], false);
  }

  /** How the reference initials split over a concatenation whose left
      part ends in a non-space (or is empty and starts after one). */
  lemma {:induction false} WordStartsAppend(a: string, b: string, afterSpace: bool)
    requires a != [] ==> a[|a| - 1] != ' '
    requires a == [] ==> !afterSpace
    ensures WordStarts(a + b, afterSpace) == WordStarts(a, afterSpace) + WordStarts(b, false)
  {
    if a != [] {
      var head := if afterSpace && a[0] != ' ' then [a[0]] else "";
      assert (a + b)[0] == a[0] && (a + b)[1..] == a[1..] + b;
      assert WordStarts(a + b, afterSpace) == head + WordStarts(a[1..] + b, a[0] == ' ');
      assert WordStarts(a, afterSpace) == head + WordStarts(a[1..], a[0] == ' ');
      if |a| == 1 {
        assert a[1..] + b == b && a[0] != ' ';
        assert WordStarts(a[1..], false) == "";
      } else {
        WordStartsAppend(a[1..], b, a[0] == ' ');
      }
      assert head + (WordStarts(a[1..], a[0] == ' ') + WordStarts(b, false))
          == (head + WordStarts(a[1..], a[0] == ' ')) + WordStarts(b, false);
    } else {
      assert a + b == b;
    }
  }

  lemma {:induction false} NoSpaceWordStarts(s: string)
    requires forall i :: 0 <= i < |s| ==> s[i] != ' '
    ensures WordStarts(s, false) == ""
  {
    if s != [] {
      NoSpaceWordStarts(s[1..]);
    }
  }
}
