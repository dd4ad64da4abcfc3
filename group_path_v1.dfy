/**
 * The first server's `GroupPathFormat.parse`: the same grammar as the later one, but the
 * path is matched as given (no trimming) and there is no empty group.
 */
module GroupPathV1 {
  import opened Wrappers
  import opened JsText
  import opened GroupPath

  /** `GroupPathFormat.parse(groupPath, defaultScreenName)` */
  function ParseV1(path: string, defaultScreenName: string): (r: Result<GroupKey, PathError>)
  {
    match MatchPath(path)
    case None => Err(InvalidGroupPath)
    case Some(m) => Ok(KeyOfMatch(m, defaultScreenName))
  }

  /** The old parser accepts exactly the grammar: the empty path and padded paths are errors. */
  lemma ParseV1Acceptance(path: string, d: string)
    ensures ParseV1(path, d).Ok? <==> InGrammar(path)
    ensures path == "" ==> ParseV1(path, d) == Err(InvalidGroupPath)
    ensures |path| > 0 && IsWhiteSpace(path[0]) ==> ParseV1(path, d).Err?
    ensures |path| > 0 && IsWhiteSpace(path[|path| - 1]) ==> ParseV1(path, d).Err?
  {
    MatchPathIffGrammar(path);
    if |path| > 0 && InGrammar(path) {
      assert IsNameChar(path[|path| - 1]);
    }
  }

  /** A missing screen name becomes the default, and the slug picks the type. */
  lemma ParseV1Bare(t: string, d: string)
    requires IsName(t)
    ensures ParseV1(t, d) == Ok(GroupKey(KindOfSlug(t), d, t))
  {
    MatchBare(t);
  }

  /** An explicit screen name is kept, and the slug picks the type. */
  lemma ParseV1Explicit(h: string, t: string, d: string)
    requires IsName(h) && IsName(t)
    ensures ParseV1("@" + h + "/" + t, d) == Ok(GroupKey(KindOfSlug(t), h, t))
  {
    MatchExplicit(h, t);
  }

  /** Wherever the old parser succeeds, the later one gives the same key. */
  lemma ParseV1AgreesWithParse(path: string, d: string)
    requires ParseV1(path, d).Ok?
    ensures Parse(path, d) == ParseV1(path, d)
  {
    var m := MatchPath(path).value;
    if m.screenName.None? {
      ParseBare(path, d);
      ParseV1Bare(path, d);
    } else {
      ParseExplicit(m.screenName.value, m.slug, d);
      ParseV1Explicit(m.screenName.value, m.slug, d);
    }
  }

  /** The old parser's test table. */
  lemma ParseV1Examples()
    ensures ParseV1("_followers", "default") == Ok(GroupKey("followers", "default", "_followers"))
    ensures ParseV1("@vain_zero/my-list", "default") == Ok(GroupKey("list", "vain_zero", "my-list"))
    ensures ParseV1("", "default") == Err(InvalidGroupPath)
  {
    assert IsName("_followers");
    ParseV1Bare("_followers", "default");
    assert "@vain_zero/my-list" == "@" + "vain_zero" + "/" + "my-list";
    assert IsName("vain_zero") && IsName("my-list");
    ParseV1Explicit("vain_zero", "my-list", "default");
    ParseV1Acceptance("", "default");
  }
}
