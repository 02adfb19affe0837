/** Path prefixes of routers: strings.Trim(s, "/") and the prefix a group
    derives from its parent's prefix and its own name. */
module Paths {

  predicate AllSlashes(s: string) {
    forall i :: 0 <= i < |s| ==> s[i] == '/'
  }

  /** A prefix as a Router keeps it: no leading and no trailing "/". */
  predicate Trimmed(s: string) {
    s == [] || (s[0] != '/' && s[|s| - 1] != '/')
  }

  /** strings.TrimLeft(s, "/") */
  function TrimLeft(s: string): string
    decreases |s|
  {
    if s != [] && s[0] == '/' then TrimLeft(s[1..]) else s
  }

  /** strings.TrimRight(s, "/") */
  function TrimRight(s: string): string
    decreases |s|
  {
    if s != [] && s[|s| - 1] == '/' then TrimRight(s[..|s| - 1]) else s
  }

  /** TrimLeft keeps a suffix of its input, drops only slashes in front of it
      and leaves no slash at its start. */
  lemma {:induction false} TrimLeftShape(s: string)
    ensures |TrimLeft(s)| <= |s| && TrimLeft(s) == s[|s| - |TrimLeft(s)|..]
    ensures AllSlashes(s[..|s| - |TrimLeft(s)|])
    ensures TrimLeft(s) == [] || TrimLeft(s)[0] != '/'
    decreases |s|
  {
    if s != [] && s[0] == '/' {
      TrimLeftShape(s[1..]);
      var k := |s| - |TrimLeft(s[1..])|;
      assert s[1..][k - 1..] == s[k..];
      forall m | 0 <= m < k ensures s[..k][m] == '/' {
        if m > 0 { assert s[..k][m] == s[1..][..k - 1][m - 1]; }
      }
    } else {
      assert s[..0] == [];
    }
  }

  /** TrimRight keeps a prefix of its input, drops only slashes after it and
      leaves no slash at its end. */
  lemma {:induction false} TrimRightShape(s: string)
    ensures |TrimRight(s)| <= |s| && TrimRight(s) == s[..|TrimRight(s)|]
    ensures AllSlashes(s[|TrimRight(s)|..])
    ensures TrimRight(s) == [] || TrimRight(s)[|TrimRight(s)| - 1] != '/'
    decreases |s|
  {
    if s != [] && s[|s| - 1] == '/' {
      var t := s[..|s| - 1];
      TrimRightShape(t);
      var k := |TrimRight(t)|;
      assert t[..k] == s[..k];
      forall m | 0 <= m < |s| - k ensures s[k..][m] == '/' {
        if m < |s| - 1 - k { assert s[k..][m] == t[k..][m]; }
      }
    } else {
      assert s[|s|..] == [];
    }
  }

  /** strings.Trim(s, "/"), which Go computes as TrimRight(TrimLeft(s)). */
  function Trim(s: string): (r: string)
    ensures Trimmed(r)
  {
    TrimLeftShape(s);
    TrimRightShape(TrimLeft(s));
    var r := TrimRight(TrimLeft(s));
    assert r != [] ==> r[0] == TrimLeft(s)[0];
    r
  }

  /** The prefix of r.Group(name) for a router whose prefix is `parent`. */
  function GroupPrefix(parent: string, name: string): (r: string)
    ensures Trimmed(r)
  {
    Trim(parent + "/" + name)
  }

  /** Trim keeps a slice of its input and removes only slashes around it. */
  lemma TrimIsSlice(s: string)
    ensures exists i, j :: 0 <= i <= j <= |s| && Trim(s) == s[i..j]
                           && AllSlashes(s[..i]) && AllSlashes(s[j..])
  {
    var t := TrimLeft(s);
    var u := TrimRight(t);
    TrimLeftShape(s);
    TrimRightShape(t);
    var i := |s| - |t|;
    var j := i + |u|;
    assert t == s[i..];
    assert u == t[..|u|];
    assert Trim(s) == s[i..j];
    assert s[j..] == t[|u|..];
    assert 0 <= i <= j <= |s| && Trim(s) == s[i..j] && AllSlashes(s[..i]) && AllSlashes(s[j..]);
  }

  /** Conversely, any slice with slash-only margins and no slash at either end
      is what Trim returns: Trim is the unique such slice. */
  lemma TrimUnique(s: string, i: nat, j: nat)
    requires i <= j <= |s|
    requires AllSlashes(s[..i]) && AllSlashes(s[j..]) && Trimmed(s[i..j])
    ensures Trim(s) == s[i..j]
  {
    TrimLeftAt(s, i, j);
    if i < j {
      assert s[i..][j - i..] == s[j..];
      assert s[i..][j - i - 1] == s[i..j][j - i - 1];
      TrimRightAt(s[i..], j - i);
      assert s[i..][..j - i] == s[i..j];
    }
  }

  lemma TrimLeftAt(s: string, i: nat, j: nat)
    requires i <= j <= |s|
    requires AllSlashes(s[..i]) && AllSlashes(s[j..]) && Trimmed(s[i..j])
    ensures TrimLeft(s) == if i < j then s[i..] else []
  {
    TrimLeftSkips(s, i);
    if i < j {
      assert s[i..][0] == s[i..j][0];
    } else {
      assert s[i..][..|s| - i] == s[j..];
      TrimLeftSkips(s[i..], |s| - i);
    }
  }

  /** Dropping a head of slashes first does not change TrimLeft. */
  lemma {:induction false} TrimLeftSkips(s: string, i: nat)
    requires i <= |s| && AllSlashes(s[..i])
    ensures TrimLeft(s) == TrimLeft(s[i..])
    decreases i
  {
    if i > 0 {
      assert s[0] == s[..i][0];
      assert s[1..][..i - 1] == s[..i][1..];
      TrimLeftSkips(s[1..], i - 1);
      assert s[1..][i - 1..] == s[i..];
    }
  }

  lemma {:induction false} TrimRightAt(s: string, j: nat)
    requires j <= |s|
    requires AllSlashes(s[j..]) && (j == 0 || s[j - 1] != '/')
    ensures TrimRight(s) == s[..j]
    decreases |s|
  {
    if |s| > j {
      assert s[|s| - 1] == s[j..][|s| - 1 - j];
      assert s[..|s| - 1][j..] == s[j..][..|s| - 1 - j];
      TrimRightAt(s[..|s| - 1], j);
      assert s[..|s| - 1][..j] == s[..j];
    }
  }

  /** A prefix that is already normalised is left as it is. */
  lemma TrimTrimmed(s: string)
    requires Trimmed(s)
    ensures Trim(s) == s
  {
    assert s[..0] == [] && s[|s|..] == [];
    TrimUnique(s, 0, |s|);
  }

  /** Normalising twice is normalising once. */
  lemma TrimIdempotent(s: string)
    ensures Trim(Trim(s)) == Trim(s)
  {
    TrimTrimmed(Trim(s));
  }

  /** Below a router with a non-empty prefix, a plain group name is joined
      with exactly one slash. */
  lemma GroupPrefixJoin(parent: string, name: string)
    requires Trimmed(parent) && Trimmed(name) && parent != [] && name != []
    ensures GroupPrefix(parent, name) == parent + "/" + name
  {
    var s := parent + "/" + name;
    assert s[0] == parent[0] && s[|s| - 1] == name[|name| - 1];
    TrimTrimmed(s);
  }

  /** A group of the root router (prefix "") gets the trimmed name. */
  lemma GroupPrefixOfRoot(name: string)
    ensures GroupPrefix("", name) == Trim(name)
  {
    var s := "" + "/" + name;
    assert s == "/" + name;
    assert TrimLeft(s) == TrimLeft(s[1..]);
    assert s[1..] == name;
  }

  /** router_test.go: a group "mygroup" of the root has prefix "mygroup". */
  lemma GroupPrefixMygroup()
    ensures GroupPrefix("", "mygroup") == "mygroup"
  {
    GroupPrefixOfRoot("mygroup");
    TrimTrimmed("mygroup");
  }

  /** Only the ends are trimmed: a name with a leading slash below a
      non-empty prefix yields a doubled separator inside the prefix. */
  lemma GroupPrefixKeepsInnerSlashes()
    ensures GroupPrefix("api", "/v1") == "api//v1"
  {
    assert "api" + "/" + "/v1" == "api//v1";
    TrimTrimmed("api//v1");
  }
}
