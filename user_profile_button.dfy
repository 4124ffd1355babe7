/** The profile button in the header: the avatar (the picture, or the
    initials when there is none or it failed to load), the dropdown's
    open flag, and the logout action. */
module UserProfileButton {
  import opened Common
  import opened Http
  import N8nService
  import AuthContext
  import ApiClient

  /** `parts.map(part => part[0]).join('')`: `part[0]` of an empty part is
      `undefined`, which `join` writes as nothing. */
  function Firsts(parts: seq<string>): (r: string)
    ensures |r| <= |parts|
    decreases |parts|
  {
    if parts == [] then []
    else (if parts[0] == [] then [] else [parts[0][0]]) + Firsts(parts[1..])
  }

  /** The characters that start a word: not a space, and first or after a
      space. `afterSpace` says whether the preceding character was one. */
  function WordStarts(s: string, afterSpace: bool): (r: string)
    ensures forall k :: 0 <= k < |r| ==> r[k] != ' ' && r[k] in s
    decreases |s|
  {
    if s == [] then []
    else (if afterSpace && s[0] != ' ' then [s[0]] else []) + WordStarts(s[1..], s[0] == ' ')
  }

  /** The first characters of the pieces between spaces are the word starts. */
  lemma {:induction false} FirstsAreWordStarts(s: string)
    ensures Firsts(Split(s, ' ')) == WordStarts(s, true)
    ensures Firsts(Split(s, ' ')[1..]) == WordStarts(s, false)
    decreases |s|
  {
    if s != [] {
      FirstsAreWordStarts(s[1..]);
      var rest := Split(s[1..], ' ');
      if s[0] == ' ' {
        assert Split(s, ' ')[1..] == rest;
      } else {
        var parts := [[s[0]] + rest[0]] + rest[1..];
        assert parts[1..] == rest[1..];
      }
    }
  }

  /** `getInitials`: the upper-cased first letters of the words, at most two. */
  function Initials(name: string): (r: string)
    ensures |r| <= 2
    ensures forall k :: 0 <= k < |r| ==> !('a' <= r[k] <= 'z') && r[k] != ' '
    ensures var starts := ToUpper(WordStarts(name, true));
            r == starts[..if |starts| < 2 then |starts| else 2]
  {
    FirstsAreWordStarts(name);
    var joined := ToUpper(Firsts(Split(name, ' ')));
    joined[..if |joined| < 2 then |joined| else 2]
  }

  /** A name of two words gives their two initials, however many spaces
      separate them. */
  lemma TwoWords(first: string, last: string, gap: nat)
    requires first != [] && ' ' !in first && last != [] && last[0] != ' '
    ensures Initials(first + Spaces(gap + 1) + last) == [UpperChar(first[0]), UpperChar(last[0])]
  {
    var tail := Spaces(gap + 1) + last;
    var name := first + tail;
    assert first + Spaces(gap + 1) + last == name;
    WordStartsAppend(first, tail, true);
    assert first[|first| - 1] in first;
    assert !After(first, true);
    assert WordStarts(first, true) == [first[0]] by {
      assert forall c :: c in first[1..] ==> c in first;
      NoSpaceNoStarts(first[1..]);
    }
    WordStartsOfSpaces(gap + 1, last);
    var starts := WordStarts(name, true);
    assert starts == [first[0]] + WordStarts(tail, false);
    assert |starts| >= 2 && starts[0] == first[0] && starts[1] == last[0];
    var upper := ToUpper(starts);
    assert upper[..2] == [UpperChar(first[0]), UpperChar(last[0])];
  }

  /** Text without spaces starts no word after its first character. */
  lemma {:induction false} NoSpaceNoStarts(s: string)
    requires ' ' !in s
    ensures WordStarts(s, false) == []
    decreases |s|
  {
    if s != [] {
      assert s[0] in s;
      assert forall c :: c in s[1..] ==> c in s;
      NoSpaceNoStarts(s[1..]);
    }
  }

  /** `n` spaces. */
  function Spaces(n: nat): (s: string)
    ensures |s| == n && forall k :: 0 <= k < n ==> s[k] == ' '
  {
    seq(n, _ => ' ')
  }

  /** The state after a text is the state of its last character. */
  function After(s: string, afterSpace: bool): bool
  {
    if s == [] then afterSpace else s[|s| - 1] == ' '
  }

  /** Word starts of a concatenation. */
  lemma {:induction false} WordStartsAppend(a: string, b: string, afterSpace: bool)
    ensures WordStarts(a + b, afterSpace) == WordStarts(a, afterSpace) + WordStarts(b, After(a, afterSpace))
    decreases |a|
  {
    if a != [] {
      assert (a + b)[0] == a[0] && (a + b)[1..] == a[1..] + b;
      WordStartsAppend(a[1..], b, a[0] == ' ');
      var h := if afterSpace && a[0] != ' ' then [a[0]] else [];
      assert WordStarts(a + b, afterSpace) == h + WordStarts(a[1..] + b, a[0] == ' ');
      assert WordStarts(a, afterSpace) == h + WordStarts(a[1..], a[0] == ' ');
      if |a| > 1 {
        assert a[1..][|a[1..]| - 1] == a[|a| - 1];
      }
      assert After(a[1..], a[0] == ' ') == After(a, afterSpace);
    } else {
      assert a + b == b;
    }
  }

  /** After a run of spaces, the next word's first letter is the only start
      contributed by the spaces and that letter. */
  lemma {:induction false} WordStartsOfSpaces(n: nat, word: string)
    requires n >= 1 && word != [] && word[0] != ' '
    ensures |WordStarts(Spaces(n) + word, false)| >= 1 && WordStarts(Spaces(n) + word, false)[0] == word[0]
    decreases n
  {
    var s := Spaces(n) + word;
    if n == 1 {
      assert s[1..] == word;
      assert WordStarts(s, false) == WordStarts(word, true);
    } else {
      assert s[1..] == Spaces(n - 1) + word;
      assert WordStarts(s, false) == WordStarts(Spaces(n - 1) + word, true);
      WordStartsAfterSpace(n - 1, word);
    }
  }

  /** The same with the state already after a space. */
  lemma {:induction false} WordStartsAfterSpace(n: nat, word: string)
    requires n >= 1 && word != [] && word[0] != ' '
    ensures |WordStarts(Spaces(n) + word, true)| >= 1 && WordStarts(Spaces(n) + word, true)[0] == word[0]
    decreases n
  {
    var s := Spaces(n) + word;
    assert s[0] == ' ';
    assert WordStarts(s, true) == WordStarts(s[1..], true);
    if n == 1 {
      assert s[1..] == word;
    } else {
      assert s[1..] == Spaces(n - 1) + word;
      WordStartsAfterSpace(n - 1, word);
    }
  }

  /** `!user.profile_picture || imageError`. */
  predicate ShowFallback(picture: Option<Json>, imageError: bool)
  {
    !N8nService.JsonTruthy(picture) || imageError
  }

  /** What the button draws: nothing without a user; otherwise the picture
      or the initials of `full_name` (a name that is not a string makes
      `split` throw). */
  datatype Avatar = NoButton | Picture(src: Json) | Fallback(initials: string) | RenderError

  function Render(user: Option<Json>, imageError: bool): (v: Avatar)
    ensures v.NoButton? <==> user.None?
    ensures v.Picture? <==> user.Some? && !ShowFallback(Field(user.value, "profile_picture"), imageError)
    ensures v.Picture? ==> Some(v.src) == Field(user.value, "profile_picture")
    ensures v.Fallback? ==>
              var name := Field(user.value, "full_name");
              name.Some? && name.value.JStr? && v.initials == Initials(name.value.s)
    ensures v.RenderError? <==>
              user.Some? && ShowFallback(Field(user.value, "profile_picture"), imageError)
              && !(Field(user.value, "full_name").Some? && Field(user.value, "full_name").value.JStr?)
  {
    if user.None? then NoButton
    else if !ShowFallback(Field(user.value, "profile_picture"), imageError) then
      Picture(Field(user.value, "profile_picture").value)
    else match Field(user.value, "full_name")
      case Some(JStr(name)) => Fallback(Initials(name))
      case _ => RenderError
  }

  /** The initials shown are those of the user's name. */
  lemma FallbackShowsInitials(user: Json, imageError: bool, name: string)
    requires Field(user, "full_name") == Some(JStr(name))
    requires ShowFallback(Field(user, "profile_picture"), imageError)
    ensures Render(Some(user), imageError) == Fallback(Initials(name))
  {
  }

  /** The component's state hooks. `lastPicture` is the value the reset
      effect last ran for. */
  class Button {
    var isOpen: bool
    var imageError: bool
    var lastPicture: Option<Json>

    constructor (picture: Option<Json>)
      ensures !isOpen && !imageError && lastPicture == picture
    {
      isOpen := false;
      imageError := false;
      lastPicture := picture;
    }

    /** The image's `onError`. */
    method ImageFailed()
      modifies this
      ensures imageError && isOpen == old(isOpen) && lastPicture == old(lastPicture)
    {
      imageError := true;
    }

    /** The reset effect: a new `profile_picture` clears the image error. */
    method PictureSeen(picture: Option<Json>)
      modifies this
      ensures lastPicture == picture && isOpen == old(isOpen)
      ensures imageError == (old(imageError) && picture == old(lastPicture))
    {
      if picture != lastPicture {
        imageError := false;
      }
      lastPicture := picture;
    }

    /** The button's click. */
    method Toggle()
      modifies this
      ensures isOpen == !old(isOpen) && imageError == old(imageError) && lastPicture == old(lastPicture)
    {
      isOpen := !isOpen;
    }

    /** A mousedown: outside the dropdown it closes. */
    method MouseDown(inside: bool)
      modifies this
      ensures isOpen == (old(isOpen) && inside)
      ensures imageError == old(imageError) && lastPicture == old(lastPicture)
    {
      if !inside {
        isOpen := false;
      }
    }
  }

  /** After a picture fails, a different picture is tried again. */
  method NewPictureRetried(b: Button, user: Json, next: Json)
    requires b.lastPicture == Field(user, "profile_picture")
    requires Field(next, "profile_picture") != Field(user, "profile_picture")
    requires N8nService.JsonTruthy(Field(next, "profile_picture"))
    modifies b
    ensures Render(Some(next), b.imageError).Picture?
  {
    b.ImageFailed();
    b.PictureSeen(Field(next, "profile_picture"));
  }

  /** `handleLogout`: signs out through the context, then goes to the login page. */
  method HandleLogout(a: AuthContext.Auth, location: ApiClient.Location)
    modifies a, a.storage, location
    ensures a.user.None? && !a.isAuthenticated && a.storage.sessionToken.None?
    ensures location.href == ApiClient.LoginPath
    ensures a.logoutCalls == old(a.logoutCalls) + (if Truthy(old(a.storage.sessionToken)) then [old(a.storage.sessionToken).value] else [])
  {
    a.Logout();
    location.href := ApiClient.LoginPath;
  }
}
