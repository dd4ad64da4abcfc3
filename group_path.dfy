/**
 * The textual group path `(@<screen name>/)?<slug>` and the group key it denotes
 * (`UserGroupPathFormat` of the v2 server).
 */
module GroupPath {
  import opened Wrappers
  import opened JsText

  /** The key type is a plain string in the source; these are the four tags it ever holds. */
  const FriendsType: string := "friends"
  const FollowersType: string := "followers"
  const ListType: string := "list"
  const EmptyType: string := "empty"

  const FriendsSlug: string := "_friends"
  const FollowersSlug: string := "_followers"

  /** `{ type, ownerScreenName, slug }` */
  datatype GroupKey = GroupKey(kind: string, ownerScreenName: string, slug: string)

  /** The key of the empty group, which a blank path denotes. */
  const EmptyKey: GroupKey := GroupKey(EmptyType, "", "")

  datatype PathError = InvalidGroupPath

  /** A character of the class `[\w\d_-]`, that is `[A-Za-z0-9_-]`. */
  predicate IsNameChar(c: char)
  {
    ('A' <= c <= 'Z') || ('a' <= c <= 'z') || ('0' <= c <= '9') || c == '_' || c == '-'
  }

  /** One or more name characters: both a screen name and a slug must be of this form. */
  predicate IsName(s: string)
  {
    |s| > 0 && forall i :: 0 <= i < |s| ==> IsNameChar(s[i])
  }

  /** The language of `^(?:@([\w\d_-]+)/)?([\w\d_-]+)$`, written with the position of the slash. */
  predicate InGrammar(s: string)
  {
    IsName(s)
    || (|s| > 0 && s[0] == '@' && exists i :: 1 < i < |s| && s[i] == '/' && IsName(s[1..i]) && IsName(s[i + 1..]))
  }

  /** The two capture groups of a successful match: the optional screen name and the slug. */
  datatype PathMatch = PathMatch(screenName: Option<string>, slug: string)

  /** `path.match(regexp)`: the captures, or None when the path is not in the grammar. */
  function MatchPath(p: string): (m: Option<PathMatch>)
    ensures m.Some? && m.value.screenName.None? ==> IsName(p) && m.value.slug == p
    ensures m.Some? && m.value.screenName.Some? ==>
              var h := m.value.screenName.value;
              IsName(h) && IsName(m.value.slug) && p == "@" + h + "/" + m.value.slug
  {
    if IsName(p) then Some(PathMatch(None, p))
    else if |p| > 0 && p[0] == '@' then
      var i := IndexOf(p, '/');
      if i > 1 && IsName(p[1..i]) && IsName(p[i + 1..]) then
        assert p == "@" + p[1..i] + "/" + p[i + 1..];
        Some(PathMatch(Some(p[1..i]), p[i + 1..]))
      else None
    else None
  }

  /** The matcher accepts exactly the grammar. */
  lemma MatchPathIffGrammar(p: string)
    ensures MatchPath(p).Some? <==> InGrammar(p)
  {
    if InGrammar(p) && !IsName(p) {
      var i :| 1 < i < |p| && p[i] == '/' && IsName(p[1..i]) && IsName(p[i + 1..]);
      forall k | 0 <= k < i ensures p[k] != '/' {
        if k > 0 { assert p[k] == p[1..i][k - 1]; }
      }
      IndexOfFirst(p, '/', i);
    }
  }

  /** The first occurrence of `c` is where `indexOf` stops. */
  lemma IndexOfFirst(s: string, c: char, i: nat)
    requires i < |s| && s[i] == c
    requires forall k :: 0 <= k < i ==> s[k] != c
    ensures IndexOf(s, c) == i
  {
  }

  /** An explicit `@screen/slug` path is matched back into its two parts. */
  lemma MatchExplicit(h: string, t: string)
    requires IsName(h) && IsName(t)
    ensures MatchPath("@" + h + "/" + t) == Some(PathMatch(Some(h), t))
  {
    var p := "@" + h + "/" + t;
    var i := |h| + 1;
    assert p[1..i] == h && p[i] == '/' && p[i + 1..] == t;
    assert !IsName(p) by { assert !IsNameChar(p[0]); }
    forall k | 0 <= k < i ensures p[k] != '/' {
      if k > 0 { assert p[k] == h[k - 1]; }
    }
    IndexOfFirst(p, '/', i);
  }

  /**
   * The type a slug selects: `_friends` and `_followers` name the built-in groups (the source
   * takes `slug.substr(1)` of these two), anything else a list.
   */
  function KindOfSlug(slug: string): (kind: string)
    ensures slug == FriendsSlug ==> kind == FriendsType
    ensures slug == FollowersSlug ==> kind == FollowersType
    ensures slug != FriendsSlug && slug != FollowersSlug ==> kind == ListType
  {
    if slug == FriendsSlug then FriendsType
    else if slug == FollowersSlug then FollowersType
    else ListType
  }

  /** A key that can come out of `Parse`: the empty key, or valid names with the type their slug selects. */
  predicate WellFormed(k: GroupKey)
  {
    k == EmptyKey || (IsName(k.ownerScreenName) && IsName(k.slug) && k.kind == KindOfSlug(k.slug))
  }

  /** JavaScript's `a || b` on strings: `b` when `a` is undefined or empty. */
  function OrElse(a: Option<string>, b: string): (r: string)
    ensures a.Some? && a.value != "" ==> r == a.value
    ensures a.None? || a.value == "" ==> r == b
  {
    if a.Some? && a.value != "" then a.value else b
  }

  /** The key a successful match denotes, with `defaultScreenName` filling a missing screen name. */
  function KeyOfMatch(m: PathMatch, defaultScreenName: string): GroupKey
  {
    GroupKey(KindOfSlug(m.slug), OrElse(m.screenName, defaultScreenName), m.slug)
  }

  /** `UserGroupPathFormat.parse`: trims, maps a blank path to the empty key, else matches the grammar. */
  function Parse(path: string, defaultScreenName: string): (r: Result<GroupKey, PathError>)
    ensures AllWhiteSpace(path) ==> r == Ok(EmptyKey)
    ensures r.Ok? && r.value != EmptyKey ==>
              IsName(r.value.slug) && r.value.kind == KindOfSlug(r.value.slug)
              && (r.value.ownerScreenName == defaultScreenName || IsName(r.value.ownerScreenName))
  {
    TrimEmptyIffBlank(path);
    var p := Trim(path);
    if p == "" then Ok(EmptyKey)
    else
      match MatchPath(p)
      case None => Err(InvalidGroupPath)
      case Some(m) => Ok(KeyOfMatch(m, defaultScreenName))
  }

  /** `UserGroupPathFormat.unparse`: `@owner/slug`, or the empty string for the empty type. */
  function Unparse(k: GroupKey): (path: string)
    ensures k.kind == EmptyType <==> path == ""
    ensures k.kind != EmptyType ==> path[0] == '@'
  {
    if k.kind == EmptyType then "" else "@" + k.ownerScreenName + "/" + k.slug
  }

  /** Parse accepts exactly the blank paths and the trimmed paths in the grammar. */
  lemma {:induction false} ParseAcceptance(path: string, d: string)
    ensures Parse(path, d).Ok? <==> AllWhiteSpace(path) || InGrammar(Trim(path))
    ensures Parse(path, d).Err? ==> Parse(path, d).error == InvalidGroupPath
  {
    TrimEmptyIffBlank(path);
    MatchPathIffGrammar(Trim(path));
    if InGrammar(Trim(path)) { assert Trim(path) != ""; }
  }

  /** An explicit screen name is kept as written and the type follows the slug. */
  lemma {:induction false} ParseExplicit(h: string, t: string, d: string)
    requires IsName(h) && IsName(t)
    ensures Parse("@" + h + "/" + t, d) == Ok(GroupKey(KindOfSlug(t), h, t))
  {
    var p := "@" + h + "/" + t;
    assert IsTrimmed(p) by { assert IsNameChar(p[|p| - 1]); }
    TrimOfTrimmed(p);
    MatchExplicit(h, t);
    ParseTrimmed(p, d);
  }

  /** Names contain no white space, so trimming leaves them unchanged. */
  lemma TrimName(t: string)
    requires IsName(t)
    ensures Trim(t) == t
  {
    assert IsNameChar(t[0]) && IsNameChar(t[|t| - 1]);
    TrimOfTrimmed(t);
  }

  /** Parsing an already trimmed, non-blank path is matching it. */
  lemma ParseTrimmed(p: string, d: string)
    requires Trim(p) == p && p != ""
    ensures MatchPath(p).None? ==> Parse(p, d) == Err(InvalidGroupPath)
    ensures MatchPath(p).Some? ==> Parse(p, d) == Ok(KeyOfMatch(MatchPath(p).value, d))
  {
  }

  /** A bare name matches as a slug alone. */
  lemma MatchBare(t: string)
    requires IsName(t)
    ensures MatchPath(t) == Some(PathMatch(None, t))
  {
  }

  /** A path split at its slash `i` into two names parses to those two parts. */
  lemma ParseSlashAt(p: string, i: nat, d: string)
    requires 1 < i < |p| && p[0] == '@' && p[i] == '/'
    requires IsName(p[1..i]) && IsName(p[i + 1..])
    ensures Parse(p, d) == Ok(GroupKey(KindOfSlug(p[i + 1..]), p[1..i], p[i + 1..]))
  {
    assert p == "@" + p[1..i] + "/" + p[i + 1..];
    ParseExplicit(p[1..i], p[i + 1..], d);
  }

  /** A bare slug is owned by the default screen name. */
  lemma {:induction false} ParseBare(t: string, d: string)
    requires IsName(t)
    ensures Parse(t, d) == Ok(GroupKey(KindOfSlug(t), d, t))
  {
    TrimName(t);
    MatchBare(t);
    ParseBareMatched(t, d);
  }

  lemma ParseBareMatched(t: string, d: string)
    requires Trim(t) == t && t != "" && MatchPath(t) == Some(PathMatch(None, t))
    ensures Parse(t, d) == Ok(GroupKey(KindOfSlug(t), d, t))
  {
    ParseTrimmed(t, d);
  }

  /** Round trip: every well-formed key, the empty key included, survives unparse then parse, whatever the default. */
  lemma {:induction false} ParseUnparse(k: GroupKey, d: string)
    requires WellFormed(k)
    ensures Parse(Unparse(k), d) == Ok(k)
  {
    if k != EmptyKey {
      assert k.kind != EmptyType;
      ParseExplicit(k.ownerScreenName, k.slug, d);
    }
  }

  /** The other direction: a parsed path that named its owner unparses to the trimmed path. */
  lemma {:induction false} UnparseParse(path: string, d: string)
    requires Parse(path, d).Ok?
    requires |Trim(path)| > 0 && Trim(path)[0] == '@'
    ensures Unparse(Parse(path, d).value) == Trim(path)
  {
  }

  /** The parse table of the project's tests, one row per lemma. */
  lemma ParseTableFollowers()
    ensures Parse("_followers", "default") == Ok(GroupKey("followers", "default", "_followers"))
  {
    ParseBare("_followers", "default");
  }

  lemma ParseTableList()
    ensures Parse("list-001", "default") == Ok(GroupKey("list", "default", "list-001"))
  {
    ParseBare("list-001", "default");
  }

  lemma ParseTableOwnFollowers()
    ensures Parse("@vain0x/_followers", "default") == Ok(GroupKey("followers", "vain0x", "_followers"))
  {
    assert "@vain0x/_followers" == "@" + "vain0x" + "/" + "_followers";
    ParseExplicit("vain0x", "_followers", "default");
  }

  lemma ParseTableOwnFriends()
    ensures Parse("@vain0x/_friends", "default") == Ok(GroupKey("friends", "vain0x", "_friends"))
  {
    assert "@vain0x/_friends" == "@" + "vain0x" + "/" + "_friends";
    ParseExplicit("vain0x", "_friends", "default");
  }

  lemma ParseTableOwnList()
    ensures Parse("@vain_zero/my-list", "default") == Ok(GroupKey("list", "vain_zero", "my-list"))
  {
    assert "@vain_zero/my-list" == "@" + "vain_zero" + "/" + "my-list";
    ParseExplicit("vain_zero", "my-list", "default");
  }

  /** A blank path is the empty group. */
  lemma ParseBlankExample()
    ensures Parse(" \t", "default") == Ok(EmptyKey)
  {
  }

  /** A path with a second slash is rejected. */
  lemma ParseTwoSlashesExample()
    ensures Parse("@a/b/c", "default") == Err(InvalidGroupPath)
  {
    var bad := "@a/b/c";
    assert IsTrimmed(bad);
    TrimOfTrimmed(bad);
    assert !IsNameChar(bad[0]) && !IsNameChar(bad[4]);
    assert IndexOf(bad, '/') == 2;
    ParseTrimmed(bad, "default");
  }
}
