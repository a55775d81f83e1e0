/** dependencyRepoFile: the chart repositories registered before a dependency build. */
module Dependencies {
  import opened Text

  /** A repository entry of the generated file. */
  datatype Repository = Repository(name: string, url: string)

  /** strings.HasPrefix. */
  predicate HasPrefix(s: string, prefix: string) {
    prefix <= s
  }

  /** The repositories the file lists; oci:// and @alias ones are resolved elsewhere. */
  predicate IsHttp(url: string) {
    HasPrefix(url, "http://") || HasPrefix(url, "https://")
  }

  function Name(i: nat): string {
    "dep-" + Itoa(i)
  }

  lemma NamesDiffer(i: nat, j: nat)
    requires i != j
    ensures Name(i) != Name(j)
  {
    if Name(i) == Name(j) {
      assert Name(i)[4..] == Itoa(i) && Name(j)[4..] == Itoa(j);
      ItoaInjective(i, j);
    }
  }

  /** Position k is where an HTTP(S) URL first occurs. */
  predicate FirstUse(urls: seq<string>, k: int) {
    0 <= k < |urls| && IsHttp(urls[k]) && urls[k] !in urls[..k]
  }

  /** The first uses of HTTP(S) URLs, in order. */
  function FirstUses(urls: seq<string>): (r: seq<nat>)
    ensures forall i | 0 <= i < |r| :: r[i] < |urls|
  {
    if urls == [] then []
    else
      var n := |urls| - 1;
      FirstUses(urls[..n]) + if FirstUse(urls, n) then [n] else []
  }

  lemma {:induction false} FirstUsesExactly(urls: seq<string>)
    ensures var p := FirstUses(urls);
            && (forall k :: k in p <==> FirstUse(urls, k))
            && (forall i, j | 0 <= i < j < |p| :: p[i] < p[j])
  {
    if urls != [] {
      var n := |urls| - 1;
      FirstUsesExactly(urls[..n]);
      forall k ensures FirstUse(urls, k) <==> FirstUse(urls[..n], k) || (k == n && FirstUse(urls, n)) {
        if 0 <= k < n {
          assert urls[..n][..k] == urls[..k] && urls[..n][k] == urls[k];
        }
      }
      hide FirstUse;
      assert forall k :: k in FirstUses(urls) <==> k in FirstUses(urls[..n]) || (k == n && FirstUse(urls, n));
    }
  }

  function RepoFile(urls: seq<string>): (entries: seq<Repository>)
    ensures |entries| == |FirstUses(urls)|
  {
    var p := FirstUses(urls);
    seq(|p|, i requires 0 <= i < |p| => Repository(Name(i), urls[p[i]]))
  }

  lemma RepoFileSnoc(urls: seq<string>, n: nat)
    requires n < |urls|
    ensures var before := RepoFile(urls[..n]);
            RepoFile(urls[..n + 1]) == if FirstUse(urls, n) then before + [Repository(Name(|before|), urls[n])] else before
  {
    var t := urls[..n + 1];
    assert t[..n] == urls[..n] && t[n] == urls[n];
    assert FirstUse(t, n) <==> FirstUse(urls, n);
    var before, p := RepoFile(urls[..n]), FirstUses(t);
    assert FirstUses(urls[..n]) == p[..|before|];
    assert forall i | 0 <= i < |before| :: RepoFile(t)[i] == before[i];
  }

  method DependencyRepoFile(urls: seq<string>) returns (entries: seq<Repository>)
    ensures entries == RepoFile(urls)
  {
    assert RepoFile(urls[..0]) == [];
    hide RepoFile, FirstUses;
    entries := [];
    var seen := {};
    for n := 0 to |urls|
      invariant entries == RepoFile(urls[..n])
      invariant forall u :: u in seen <==> IsHttp(u) && u in urls[..n]
    {
      var u := urls[n];
      RepoFileSnoc(urls, n);
      assert urls[..n + 1] == urls[..n] + [u];
      if (!HasPrefix(u, "http://") && !HasPrefix(u, "https://")) || u in seen {
        continue;
      }
      seen := seen + {u};
      entries := entries + [Repository("dep-" + Itoa(|entries|), u)];
    }
    assert urls[..|urls|] == urls;
  }

  /** The two prefixes that count. */
  lemma HttpPrefixes(url: string)
    ensures IsHttp(url) <==>
              (|url| >= 7 && url[..7] == "http://") || (|url| >= 8 && url[..8] == "https://")
  {
    assert |"http://"| == 7 && |"https://"| == 8;
    assert forall p: string | p <= url :: p == url[..|p|];
  }

  /** Each distinct HTTP(S) URL is registered once and nothing else is; entry i is dep-i, so the names
      differ too; and the entries come in the order of first use. */
  lemma RegisteredOnce(urls: seq<string>)
    ensures var r := RepoFile(urls);
            && (forall u :: (exists i :: 0 <= i < |r| && r[i].url == u) <==>
                              u in urls && ("http://" <= u || "https://" <= u))
            && (forall i, j | 0 <= i < j < |r| :: r[i].url != r[j].url && r[i].name != r[j].name)
            && (forall i | 0 <= i < |r| :: r[i].name == "dep-" + Itoa(i) && r[i].url == urls[FirstUses(urls)[i]])
  {
    FirstUsesExactly(urls);
    var r, p := RepoFile(urls), FirstUses(urls);
    forall i, j | 0 <= i < j < |r| ensures r[i].url != r[j].url && r[i].name != r[j].name {
      NamesDiffer(i, j);
      assert p[i] in p && p[j] in p && FirstUse(urls, p[j]);
      assert urls[..p[j]][p[i]] == urls[p[i]];
    }
    forall u | IsHttp(u) && u in urls ensures exists i :: 0 <= i < |r| && r[i].url == u {
      var k := FirstOf(urls, u);
      assert k in p;
      var i :| 0 <= i < |p| && p[i] == k;
      assert r[i].url == u;
    }
    forall i | 0 <= i < |r| ensures IsHttp(r[i].url) && r[i].url in urls {
      assert p[i] in p && FirstUse(urls, p[i]);
    }
  }

  lemma {:induction false} FirstOf(urls: seq<string>, u: string) returns (k: nat)
    requires u in urls
    ensures k < |urls| && urls[k] == u && u !in urls[..k]
  {
    var n := |urls| - 1;
    if u in urls[..n] {
      k := FirstOf(urls[..n], u);
      assert urls[..n][..k] == urls[..k];
    } else {
      k := n;
    }
  }
}
