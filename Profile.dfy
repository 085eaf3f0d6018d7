/** The profile screen: the avatar initials and display name derived from the
    user's name, and the two notification switches. */
module Profile {
  import opened Wrappers
  import opened Collections
  import opened Text

  /** `s.split(sep)`: the pieces between separators, empty ones included; there is
      always at least one piece. */
  function Split(s: string, sep: char): (parts: seq<string>)
    ensures |parts| >= 1
    ensures forall i :: 0 <= i < |parts| ==> sep !in parts[i]
  {
    if s == [] then [[]]
    else
      var rest := Split(s[1..], sep);
      if s[0] == sep then [[]] + rest
      else [[s[0]] + rest[0]] + rest[1..]
  }

  /** Splitting and joining again with the same separator gives back the string. */
  lemma {:induction false} SplitJoin(s: string, sep: char)
    ensures Join(Split(s, sep), sep) == s
  {
    if s != [] {
      var rest := Split(s[1..], sep);
      SplitJoin(s[1..], sep);
      if s[0] == sep {
        assert ([[]] + rest)[1..] == rest;
      } else {
        var parts := [[s[0]] + rest[0]] + rest[1..];
        assert parts[1..] == rest[1..];
        if |rest| > 1 {
          assert Join(rest, sep) == rest[0] + [sep] + Join(rest[1..], sep);
        }
      }
    }
  }

  /** `n[0]` joined into a string: the first character, or nothing for an empty
      piece (`undefined` joins as the empty string). */
  function Head(part: string): (h: string)
    ensures |h| <= 1
    ensures part != [] ==> h == [part[0]]
    ensures part == [] ==> h == []
  {
    if part == [] then [] else [part[0]]
  }

  /** `parts.map(n => n[0]).join('')`. */
  function Heads(parts: seq<string>): (r: string)
    ensures |r| <= |parts|
  {
    if parts == [] then [] else Head(parts[0]) + Heads(parts[1..])
  }

  /** `c` is the first character of some non-empty piece. */
  predicate StartsSomePiece(c: char, parts: seq<string>) {
    exists j :: 0 <= j < |parts| && parts[j] != [] && parts[j][0] == c
  }

  /** Each character of the heads is the first character of some non-empty piece. */
  lemma {:induction false} HeadsFromPieces(parts: seq<string>)
    ensures forall i :: 0 <= i < |Heads(parts)| ==> StartsSomePiece(Heads(parts)[i], parts)
  {
    if parts != [] {
      HeadsFromPieces(parts[1..]);
      var h, rest := Head(parts[0]), Heads(parts[1..]);
      assert Heads(parts) == h + rest;
      forall i | 0 <= i < |Heads(parts)| ensures StartsSomePiece(Heads(parts)[i], parts) {
        if i < |h| {
          assert parts[0] != [] && Heads(parts)[i] == parts[0][0];
        } else {
          assert Heads(parts)[i] == rest[i - |h|];
          assert StartsSomePiece(rest[i - |h|], parts[1..]);
          var j :| 0 <= j < |parts[1..]| && parts[1..][j] != [] && parts[1..][j][0] == rest[i - |h|];
          assert parts[j + 1] == parts[1..][j];
        }
      }
    }
  }

  /** The avatar text: the upper-cased first letters of the space-separated pieces
      of the name, or `JD` when there is no name or it is empty. */
  function Initials(name: Option<string>): (r: string)
    ensures name.None? || name.value == "" ==> r == "JD"
    ensures name.Some? && name.value != "" ==> |r| <= |Split(name.value, ' ')|
  {
    if name.Some? && name.value != "" then Upper(Heads(Split(name.value, ' '))) else "JD"
  }

  /** `c` is the upper-cased first character of some non-empty piece. */
  predicate InitialOfSomePiece(c: char, parts: seq<string>) {
    exists j :: 0 <= j < |parts| && parts[j] != [] && UpperChar(parts[j][0]) == c
  }

  /** No initial is a space, and each is the upper-cased first character of a piece
      of the name. */
  lemma InitialsFromPieces(name: string)
    requires name != ""
    ensures forall i :: 0 <= i < |Initials(Some(name))| ==> Initials(Some(name))[i] != ' '
    ensures forall i :: 0 <= i < |Initials(Some(name))| ==>
      InitialOfSomePiece(Initials(Some(name))[i], Split(name, ' '))
  {
    var parts := Split(name, ' ');
    HeadsFromPieces(parts);
    var hs := Heads(parts);
    var r := Initials(Some(name));
    assert r == Upper(hs);
    forall i | 0 <= i < |r|
      ensures r[i] != ' ' && InitialOfSomePiece(r[i], parts)
    {
      assert StartsSomePiece(hs[i], parts);
      var j :| 0 <= j < |parts| && parts[j] != [] && parts[j][0] == hs[i];
      assert parts[j][0] in parts[j];
      assert r[i] == UpperChar(parts[j][0]);
    }
  }

  /** Splitting at a separator between two strings splits each of them. */
  lemma {:induction false} SplitAppend(x: string, y: string, sep: char)
    ensures Split(x + [sep] + y, sep) == Split(x, sep) + Split(y, sep)
  {
    if x == [] {
      assert x + [sep] + y == [sep] + y;
      assert ([sep] + y)[1..] == y;
    } else {
      assert (x + [sep] + y)[0] == x[0];
      assert (x + [sep] + y)[1..] == x[1..] + [sep] + y;
      SplitAppend(x[1..], y, sep);
    }
  }

  /** A string without the separator is one piece. */
  lemma {:induction false} SplitWord(w: string, sep: char)
    requires sep !in w
    ensures Split(w, sep) == [w]
  {
    if w != [] {
      assert sep !in w[1..] by {
        forall k | 0 <= k < |w[1..]| ensures w[1..][k] != sep {
          assert w[1..][k] == w[k + 1];
        }
      }
      SplitWord(w[1..], sep);
      assert [w[0]] + w[1..] == w;
    }
  }

  /** The heads of two lists of pieces, one after the other. */
  lemma {:induction false} HeadsAppend(a: seq<string>, b: seq<string>)
    ensures Heads(a + b) == Heads(a) + Heads(b)
  {
    if a == [] {
      assert a + b == b;
    } else {
      assert (a + b)[0] == a[0];
      assert (a + b)[1..] == a[1..] + b;
      HeadsAppend(a[1..], b);
    }
  }

  /** The initials of two space-separated parts of a name are the initials of the
      first part followed by those of the second: no piece is skipped or reordered. */
  lemma InitialsAppend(x: string, y: string)
    requires x != "" && y != ""
    ensures Initials(Some(x + " " + y)) == Initials(Some(x)) + Initials(Some(y))
  {
    SplitAppend(x, y, ' ');
    HeadsAppend(Split(x, ' '), Split(y, ' '));
    var a, b := Heads(Split(x, ' ')), Heads(Split(y, ' '));
    assert Upper(a + b) == Upper(a) + Upper(b);
  }

  /** A single word gives its upper-cased first letter. */
  lemma InitialsOfWord(w: string)
    requires w != "" && ' ' !in w
    ensures Initials(Some(w)) == [UpperChar(w[0])]
  {
    SplitWord(w, ' ');
    assert Heads([w]) == [w[0]] + Heads([]);
  }

  /** The shown name: the name when it is present and non-empty, else `User`. */
  function DisplayName(name: Option<string>): (r: string)
    ensures r == "User" <==> name.None? || name.value == "" || name.value == "User"
    ensures r != "User" ==> name == Some(r)
  {
    if name.Some? && name.value != "" then name.value else "User"
  }

  /** The switches the screen starts with. */
  const InitialSettings: map<string, bool> := map["notifications" := true, "emailUpdates" := false]

  class ProfileScreen {
    var userName: Option<string>
    var settings: map<string, bool>

    constructor ()
      ensures userName == Some("John Doe") && settings == InitialSettings
    {
      userName := Some("John Doe");
      settings := InitialSettings;
    }

    function AvatarText(): string
      reads this
    {
      Initials(userName)
    }

    function ShownName(): string
      reads this
    {
      DisplayName(userName)
    }

    /** `toggleSetting`: the named switch flips (a missing one reads as off), the
        others keep their values. */
    method ToggleSetting(setting: string)
      modifies this`settings
      ensures settings == Toggle(old(settings), setting)
      ensures settings[setting] == !(setting in old(settings) && old(settings)[setting])
      ensures forall k :: k in old(settings) && k != setting ==> settings[k] == old(settings)[k]
    {
      settings := Toggle(settings, setting);
    }
  }
}
