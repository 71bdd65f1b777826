/**
 * The environment override file: one `KEY=VALUE` per line, read by
 * loadEnvVariables. The file is trimmed, split into lines, and each trimmed
 * line is cut at its first '='; lines without '=' are dropped and a later line
 * overrides an earlier one with the same key.
 */
module EnvFile {
  import opened Wrappers
  import opened GoStrings

  type Entry = Option<(string, string)>

  /** The pair a line contributes, if any: the trimmed line cut at its first '='. */
  function LineEntry(line: string): Entry {
    var parts := SplitN2(TrimSpace(line), '=');
    if |parts| != 2 then None else Some((parts[0], parts[1]))
  }

  /** A line contributes a pair exactly when its trimmed text holds '=', and
      the pair rebuilds that text: the key holds no '=' and the value keeps
      every '=' after the first. */
  lemma LineEntryMeaning(line: string)
    ensures LineEntry(line).Some? <==> '=' in TrimSpace(line)
    ensures LineEntry(line).Some? ==>
      var (k, v) := LineEntry(line).value; '=' !in k && TrimSpace(line) == k + "=" + v
  {
  }

  function LineEntries(lines: seq<string>): (es: seq<Entry>)
    ensures |es| == |lines|
  {
    seq(|lines|, i requires 0 <= i < |lines| => LineEntry(lines[i]))
  }

  /** The map built by applying the entries in order. */
  function Apply(es: seq<Entry>): map<string, string> {
    if es == [] then map[]
    else
      var m := Apply(es[..|es| - 1]);
      var e := es[|es| - 1];
      if e.None? then m else m[e.value.0 := e.value.1]
  }

  /** Applying one more entry updates the map with it. */
  lemma ApplyStep(es: seq<Entry>, i: int)
    requires 0 <= i < |es|
    ensures Apply(es[..i + 1]) == if es[i].None? then Apply(es[..i]) else Apply(es[..i])[es[i].value.0 := es[i].value.1]
  {
    assert es[..i + 1][..i] == es[..i];
  }

  /** The variables an override file defines; a file that cannot be read
      defines none. */
  function ParseEnvFile(file: Option<string>): map<string, string> {
    match file
    case None => map[]
    case Some(text) => Apply(LineEntries(Split(TrimSpace(text), '\n')))
  }

  predicate Defines(e: Entry, k: string) {
    e.Some? && e.value.0 == k
  }

  /** Entry `i` is the last one that defines `k`. */
  predicate LastDefinition(es: seq<Entry>, i: int, k: string) {
    0 <= i < |es| && Defines(es[i], k) && forall j :: i < j < |es| ==> !Defines(es[j], k)
  }

  /** A key is defined exactly when some entry defines it. */
  lemma {:induction false} AppliedKeys(es: seq<Entry>, k: string)
    ensures k in Apply(es) <==> exists i :: 0 <= i < |es| && Defines(es[i], k)
  {
    if es != [] {
      var n := |es| - 1;
      var init := es[..n];
      AppliedKeys(init, k);
      if Defines(es[n], k) {
        assert 0 <= n < |es| && Defines(es[n], k);
      } else if k in Apply(init) {
        var i :| 0 <= i < |init| && Defines(init[i], k);
        assert es[i] == init[i];
      } else {
        forall i | 0 <= i < |es| ensures !Defines(es[i], k) {
          if i < n {
            assert es[i] == init[i];
          }
        }
      }
    }
  }

  /** The value of a key is the one of the last entry that defines it. */
  lemma {:induction false} LastEntryWins(es: seq<Entry>, i: int, k: string)
    requires LastDefinition(es, i, k)
    ensures k in Apply(es) && Apply(es)[k] == es[i].value.1
  {
    var init := es[..|es| - 1];
    if i < |es| - 1 {
      assert LastDefinition(init, i, k) by {
        forall j | i < j < |init| ensures !Defines(init[j], k) {
          assert init[j] == es[j];
        }
      }
      LastEntryWins(init, i, k);
    }
  }

  /** No key of an override file holds '=': each is the part of a line before
      its first '='. */
  lemma ParsedKeysHaveNoEquals(file: Option<string>)
    ensures forall k :: k in ParseEnvFile(file) ==> '=' !in k
  {
    if file.Some? {
      var lines := Split(TrimSpace(file.value), '\n');
      var es := LineEntries(lines);
      assert ParseEnvFile(file) == Apply(es);
      forall k | k in Apply(es) ensures '=' !in k {
        AppliedKeys(es, k);
        var i :| 0 <= i < |es| && Defines(es[i], k);
        assert es[i] == LineEntry(lines[i]);
        LineEntryMeaning(lines[i]);
      }
    }
  }

  /** A line `KEY=VALUE` with no white space at either end reads back as
      its key and value, whatever the value holds (quotes, further '='); an
      empty key, as in `=VALUE`, is kept like any other. */
  lemma LineEntryOf(k: string, v: string)
    requires '=' !in k
    requires k == [] || !IsSpace(k[0])
    requires v == [] || !IsSpace(v[|v| - 1])
    ensures LineEntry(k + "=" + v) == Some((k, v))
  {
    var line := k + "=" + v;
    assert line == k + ("=" + v);
    if k == [] {
      assert line[0] == '=';
    } else {
      assert line[0] == k[0];
    }
    if v == [] {
      assert line[|line| - 1] == '=';
    } else {
      assert line[|line| - 1] == v[|v| - 1];
    }
    assert line != [] && !IsSpace(line[0]) && !IsSpace(line[|line| - 1]);
    assert SpaceAround(line, 0, line) by {
      assert line[0..|line|] == line && line[..0] == [] && line[|line|..] == [];
    }
    TrimSpaceUnique(line, 0, line);
    SplitN2Join(k, v, '=');
  }
}
