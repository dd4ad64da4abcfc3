/**
 * The server configuration: the `KEY=VALUE` text of a configuration file turned into a
 * record (`readConfigFile`, after the file has been read), and the lookups that prefer the
 * process environment over that record (`envOrConfig`).
 */
module Config {
  import opened Wrappers
  import opened JsText

  /** Removes one trailing carriage return. */
  function DropCR(s: string): (r: string)
    ensures r == s || (s == r + "\r")
  {
    if |s| > 0 && s[|s| - 1] == '\r' then s[..|s| - 1] else s
  }

  /** `text.split(/\r?\n/)`: split at every line feed, together with a carriage return before it. */
  function Lines(text: string): (lines: seq<string>)
    ensures |lines| >= 1
    ensures forall i :: 0 <= i < |lines| ==> '\n' !in lines[i]
    decreases |text|
  {
    var i := IndexOf(text, '\n');
    if i < 0 then [text]
    else
      assert forall c :: c in DropCR(text[..i]) ==> c in text[..i];
      [DropCR(text[..i])] + Lines(text[i + 1..])
  }

  /** A text without line feed is one line, carriage returns included. */
  lemma LinesSingle(text: string)
    requires '\n' !in text
    ensures Lines(text) == [text]
  {
  }

  /** A line feed ends a line. */
  lemma LinesBreakLF(a: string, b: string)
    requires '\n' !in a && (a == [] || a[|a| - 1] != '\r')
    ensures Lines(a + "\n" + b) == [a] + Lines(b)
  {
    var t := a + "\n" + b;
    assert t[..|a|] == a && t[|a|] == '\n' && t[|a| + 1..] == b;
    assert IndexOf(t, '\n') == |a| by {
      assert '\n' !in t[..|a|];
    }
  }

  /** A carriage return before the line feed is not part of the line. */
  lemma LinesBreakCRLF(a: string, b: string)
    requires '\n' !in a
    ensures Lines(a + "\r\n" + b) == [a] + Lines(b)
  {
    var u := a + "\r\n" + b;
    assert u[..|a| + 1] == a + "\r" && u[|a| + 1] == '\n' && u[|a| + 2..] == b;
    assert IndexOf(u, '\n') == |a| + 1 by {
      assert '\n' !in u[..|a| + 1];
    }
    assert DropCR(a + "\r") == a;
  }

  /** True when the line is a comment. */
  predicate IsComment(line: string)
  {
    |line| > 0 && line[0] == '#'
  }

  /**
   * The entry of one line: comments and lines without `=` give none; otherwise the line is
   * cut at its first `=` and both sides are trimmed.
   */
  function EntryOf(line: string): (r: Option<(string, string)>)
    ensures r.Some? <==> !IsComment(line) && '=' in line
  {
    if IsComment(line) then None
    else
      var i := IndexOf(line, '=');
      if i < 0 then None else Some((Trim(line[..i]), Trim(line[i + 1..])))
  }

  /** A line is cut at its first `=`: the value may itself hold `=`. */
  lemma EntryOfFirstEquals(key: string, value: string)
    requires '=' !in key && !IsComment(key)
    ensures EntryOf(key + "=" + value) == Some((Trim(key), Trim(value)))
  {
    var line := key + "=" + value;
    assert line[..|key|] == key && line[|key|] == '=' && line[|key| + 1..] == value;
    assert !IsComment(line) by {
      if key == [] {
        assert line[0] == '=';
      } else {
        assert line[0] == key[0];
      }
    }
    assert IndexOf(line, '=') == |key| by {
      assert '=' !in line[..|key|];
    }
  }

  /** The entries of the lines, in order. */
  function Entries(lines: seq<string>): (entries: seq<(string, string)>)
    ensures |entries| <= |lines|
  {
    if lines == [] then []
    else
      var last := EntryOf(lines[|lines| - 1]);
      Entries(lines[..|lines| - 1]) + (if last.Some? then [last.value] else [])
  }

  lemma EntriesSnoc(lines: seq<string>, k: nat)
    requires k < |lines|
    ensures Entries(lines[..k + 1])
      == Entries(lines[..k]) + (if EntryOf(lines[k]).Some? then [EntryOf(lines[k]).value] else [])
  {
    assert lines[..k + 1][..k] == lines[..k];
  }

  /** `Object.fromEntries(entries)`: later entries overwrite earlier ones with the same key. */
  function FromEntries(entries: seq<(string, string)>): map<string, string>
  {
    if entries == [] then map[]
    else
      var last := entries[|entries| - 1];
      FromEntries(entries[..|entries| - 1])[last.0 := last.1]
  }

  /** The record holds no key that is not the key of some entry. */
  lemma {:induction false} FromEntriesKeys(entries: seq<(string, string)>)
    ensures forall k :: k in FromEntries(entries) ==> exists i :: 0 <= i < |entries| && entries[i].0 == k
  {
    if entries != [] {
      var init := entries[..|entries| - 1];
      FromEntriesKeys(init);
      var last := entries[|entries| - 1];
      assert FromEntries(entries) == FromEntries(init)[last.0 := last.1];
      forall k | k in FromEntries(entries) ensures exists i :: 0 <= i < |entries| && entries[i].0 == k {
        if k == last.0 {
          assert entries[|entries| - 1].0 == k;
        } else {
          assert k in FromEntries(init);
          var i :| 0 <= i < |init| && init[i].0 == k;
          assert entries[i].0 == k;
        }
      }
    }
  }

  /** Every key of the entries is in the record, with the value of its last entry. */
  lemma {:induction false} FromEntriesLastWins(entries: seq<(string, string)>, i: nat)
    requires i < |entries|
    requires forall j :: i < j < |entries| ==> entries[j].0 != entries[i].0
    ensures entries[i].0 in FromEntries(entries)
    ensures FromEntries(entries)[entries[i].0] == entries[i].1
  {
    if i < |entries| - 1 {
      var init := entries[..|entries| - 1];
      forall j | i < j < |init| ensures init[j].0 != init[i].0 {
        assert init[j] == entries[j];
      }
      FromEntriesLastWins(init, i);
    }
  }

  /** The record of a configuration text (`readConfigFile` once the file is read). */
  function ConfigOf(text: string): map<string, string>
  {
    FromEntries(Entries(Lines(text)))
  }

  /**
   * The loop of `readConfigFile`: every line that is not a comment and holds an `=` adds
   * its trimmed key and value, and the entries become a record.
   */
  method ReadConfigText(text: string) returns (config: map<string, string>)
    ensures config == ConfigOf(text)
  {
    var lines := Lines(text);
    var entries: seq<(string, string)> := [];
    for k := 0 to |lines|
      invariant entries == Entries(lines[..k])
    {
      var line := lines[k];
      EntriesSnoc(lines, k);
      if !(|line| > 0 && line[0] == '#') {
        var i := IndexOf(line, '=');
        if i >= 0 {
          var key := Trim(line[..i]);
          var value := Trim(line[i + 1..]);
          entries := entries + [(key, value)];
        }
      }
    }
    assert lines[..|lines|] == lines;
    config := FromEntries(entries);
  }

  /** A line that is a comment or holds no `=` adds nothing to the record. */
  lemma ConfigSkipsLine(lines: seq<string>, line: string)
    requires IsComment(line) || '=' !in line
    ensures FromEntries(Entries(lines + [line])) == FromEntries(Entries(lines))
  {
    assert (lines + [line])[..|lines|] == lines;
    assert Entries(lines) + [] == Entries(lines);
  }

  /** A `key=value` line sets its key, whatever lines came before it. */
  lemma ConfigLastLineWins(lines: seq<string>, key: string, value: string)
    requires '=' !in key && !IsComment(key)
    ensures Trim(key) in FromEntries(Entries(lines + [key + "=" + value]))
    ensures FromEntries(Entries(lines + [key + "=" + value]))[Trim(key)] == Trim(value)
  {
    EntryOfFirstEquals(key, value);
    assert (lines + [key + "=" + value])[..|lines|] == lines;
  }

  // ---------------------------------------------------------------------------------------
  // envOrConfig

  /** The process environment and the configuration record, as `envOrConfig` wraps them. */
  datatype EnvOrConfig = EnvOrConfig(env: map<string, string>, config: map<string, string>)

  datatype ConfigError = Unspecified(key: string)   // "Environment variable ... is unspecified or empty."

  /** A JavaScript truthy lookup: an absent key and the empty string are both falsy. */
  predicate Set(m: map<string, string>, key: string)
  {
    key in m && m[key] != ""
  }

  /** `get(key)`: `process.env[key] || config[key]`, and an error when that is falsy. */
  function Get(c: EnvOrConfig, key: string): (r: Result<string, ConfigError>)
    ensures r.Ok? <==> Set(c.env, key) || Set(c.config, key)
    ensures Set(c.env, key) ==> r == Ok(c.env[key])
    ensures !Set(c.env, key) && Set(c.config, key) ==> r == Ok(c.config[key])
    ensures r.Ok? ==> r.value != ""
    ensures r.Err? ==> r.error == Unspecified(key)
  {
    var value := if Set(c.env, key) then c.env[key] else if key in c.config then c.config[key] else "";
    if value == "" then Err(Unspecified(key)) else Ok(value)
  }

  /** `getOr(key, alt)`: `process.env[key] || config[key] || alt`. */
  function GetOr(c: EnvOrConfig, key: string, alt: string): (r: string)
    ensures r == (if Get(c, key).Ok? then Get(c, key).value else alt)
  {
    if Set(c.env, key) then c.env[key] else if Set(c.config, key) then c.config[key] else alt
  }
}
