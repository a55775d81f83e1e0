/** configMapManifests: the manifest stream of a ConfigMap. */
module Manifests {
  import opened Ordering
  import opened Text

  /** The API server keeps the two key sets apart; the code does not rely on it. */
  datatype ConfigMap = ConfigMap(data: map<string, string>, binaryData: map<string, string>) {
    predicate Has(k: string) {
      k in data || k in binaryData
    }

    /** An entry, from data if it is there. */
    function Entry(k: string): string
      requires Has(k)
    {
      if k in data then data[k] else binaryData[k]
    }

    /** The keys as listed: once for each of the two maps they are in. */
    function Listing(): multiset<string> {
      multiset(data.Keys) + multiset(binaryData.Keys)
    }
  }

  datatype Content = Stream(bytes: string) | KeyNotFound | KeyEmpty | NoManifests

  const MARKER := "---"
  const SEPARATOR := "\n" + MARKER + "\n"

  // ---- what is joined

  ghost function Enumerate(s: set<string>): (r: seq<string>)
    ensures multiset(r) == multiset(s)
  {
    if s == {} then [] else
      var x :| x in s;
      assert multiset(s) == multiset{x} + multiset(s - {x});
      [x] + Enumerate(s - {x})
  }

  /** The listed keys in ascending order. */
  ghost function Keys(cm: ConfigMap): (r: seq<string>)
    ensures multiset(r) == cm.Listing()
    ensures forall k | k in r :: cm.Has(k)
  {
    var r := Sort(Enumerate(cm.data.Keys) + Enumerate(cm.binaryData.Keys));
    assert forall k | k in r :: k in multiset(r);
    r
  }

  ghost function Docs(cm: ConfigMap): seq<string> {
    EntriesOf(cm, Keys(cm))
  }

  function EntriesOf(cm: ConfigMap, keys: seq<string>): (docs: seq<string>)
    requires forall k | k in keys :: cm.Has(k)
    ensures |docs| == |keys|
  {
    seq(|keys|, i requires 0 <= i < |keys| => cm.Entry(keys[i]))
  }

  /** bytes.Join with the separator. */
  function Join(docs: seq<string>): string {
    if docs == [] then ""
    else if |docs| == 1 then docs[0]
    else Join(docs[..|docs| - 1]) + SEPARATOR + docs[|docs| - 1]
  }

  ghost predicate NothingToLoad(cm: ConfigMap) {
    Docs(cm) == [] || (|Docs(cm)| == 1 && Blank(Docs(cm)[0]))
  }

  /** Whatever order the maps are walked in, the sorted listing is the same. */
  lemma AnyOrder(cm: ConfigMap, keys: seq<string>)
    requires multiset(keys) == cm.Listing()
    ensures Sort(keys) == Keys(cm)
  {
    SortCanonical(keys, Enumerate(cm.data.Keys) + Enumerate(cm.binaryData.Keys));
  }

  /** The entries under the keys, one by one: from data if the key is there, else from binaryData. */
  predicate Holds(cm: ConfigMap, keys: seq<string>, docs: seq<string>) {
    && |docs| == |keys|
    && forall i | 0 <= i < |keys| ::
         && (keys[i] in cm.data ==> docs[i] == cm.data[keys[i]])
         && (keys[i] !in cm.data ==> keys[i] in cm.binaryData && docs[i] == cm.binaryData[keys[i]])
  }

  /** With a key: the entry in data, or else the one in binaryData, unless there is neither or it is
      blank. Without: the entries of all keys, in ascending order, joined. */
  method ConfigMapManifests(cm: ConfigMap, key: string) returns (r: Content)
    ensures key != "" ==>
              if key in cm.data then r == (if Blank(cm.data[key]) then KeyEmpty else Stream(cm.data[key]))
              else if key in cm.binaryData then
                r == (if Blank(cm.binaryData[key]) then KeyEmpty else Stream(cm.binaryData[key]))
              else r == KeyNotFound
    ensures key == "" ==>
              && r == (if NothingToLoad(cm) then NoManifests else Stream(Join(Docs(cm))))
              && Holds(cm, Keys(cm), Docs(cm)) && Ascending(Keys(cm))
              && multiset(Keys(cm)) == multiset(cm.data.Keys) + multiset(cm.binaryData.Keys)
  {
    DocsAt(cm);
    KeysAscending(cm);
    hide Docs, Join, Blank, Ascending;
    if key != "" {
      if !cm.Has(key) {
        return KeyNotFound;
      }
      var v := cm.Entry(key);
      var blank := IsBlank(v);
      return if blank then KeyEmpty else Stream(v);
    }
    var docs := SortedDocs(cm);
    var joined := Join(docs);
    BlankJoin(docs);
    var blank := IsBlank(joined);
    return if blank then NoManifests else Stream(joined);
  }

  /** len(bytes.TrimSpace(b)) == 0. */
  method IsBlank(bytes: string) returns (blank: bool)
    ensures blank <==> Blank(bytes)
  {
    TrimSpaceTrims(bytes);
    blank := |TrimSpace(bytes)| == 0;
  }

  method SortedDocs(cm: ConfigMap) returns (docs: seq<string>)
    ensures docs == Docs(cm)
  {
    ghost var sorted, all := Keys(cm), Docs(cm);
    DocsAt(cm);
    hide Keys, Docs, EntriesOf;
    var keys := SortedKeys(cm);
    docs := [];
    for i := 0 to keys.Length
      invariant |docs| == i
      invariant forall j | 0 <= j < i :: docs[j] == all[j]
    {
      assert keys[i] == sorted[i];
      docs := docs + [cm.Entry(keys[i])];
    }
    assert docs == all;
  }

  lemma DocsAt(cm: ConfigMap)
    ensures |Docs(cm)| == |Keys(cm)|
    ensures forall i | 0 <= i < |Docs(cm)| :: cm.Has(Keys(cm)[i]) && Docs(cm)[i] == cm.Entry(Keys(cm)[i])
    ensures Holds(cm, Keys(cm), Docs(cm))
  {
  }

  method SortedKeys(cm: ConfigMap) returns (keys: array<string>)
    ensures fresh(keys) && keys[..] == Keys(cm)
  {
    var data := Walk(cm.data.Keys);
    var binary := Walk(cm.binaryData.Keys);
    var listed := data + binary;
    keys := new string[|listed|](i requires 0 <= i < |listed| => listed[i]);
    assert keys[..] == listed;
    AnyOrder(cm, listed);
    SortStrings(keys);
  }

  /** Ranging over a map's keys, in an order of the runtime's choosing. */
  method Walk(keys: set<string>) returns (r: seq<string>)
    ensures multiset(r) == multiset(keys)
  {
    r := [];
    var todo := keys;
    while todo != {}
      invariant todo <= keys && multiset(r) + multiset(todo) == multiset(keys)
      decreases todo
    {
      var k :| k in todo;
      assert multiset(todo) == multiset{k} + multiset(todo - {k});
      r := r + [k];
      todo := todo - {k};
    }
  }

  /** What joining puts between two entries. */
  lemma JoinsWithMarker(docs: seq<string>, d: string)
    ensures Join([]) == "" && Join([d]) == d
    ensures docs != [] ==> Join(docs + [d]) == Join(docs) + "\n---\n" + d
  {
    assert (docs + [d])[..|docs|] == docs;
    assert SEPARATOR == "\n---\n";
  }

  // ---- when nothing is found

  lemma SeparatorNotBlank(a: string, b: string)
    ensures !Blank(a + SEPARATOR + b)
  {
    var s := a + SEPARATOR + b;
    assert s[|a| + 1] == '-' && s[|a| + 1] in s;
  }

  /** The blank test sees the joined bytes: two entries are never blank together. */
  lemma BlankJoin(docs: seq<string>)
    ensures Blank(Join(docs)) <==> docs == [] || (|docs| == 1 && Blank(docs[0]))
  {
    if |docs| > 1 {
      SeparatorNotBlank(Join(docs[..|docs| - 1]), docs[|docs| - 1]);
    }
  }

  lemma OneEntryOneMap(cm: ConfigMap)
    requires |cm.data| + |cm.binaryData| == 1
    ensures cm.data == map[] || cm.binaryData == map[]
  {
    assert |cm.data| == 0 || |cm.binaryData| == 0;
  }

  lemma OneBlankEntry(cm: ConfigMap)
    ensures NothingToLoad(cm) <==>
              || |cm.data| + |cm.binaryData| == 0
              || (|cm.data| + |cm.binaryData| == 1 && forall k | cm.Has(k) :: Blank(cm.Entry(k)))
  {
    var keys := Keys(cm);
    hide Enumerate, Sort, Blank;
    assert |keys| == |multiset(keys)| == |cm.data| + |cm.binaryData|;
    if |keys| == 1 {
      assert forall k :: cm.Has(k) <==> k in multiset(keys);
      assert forall k :: cm.Has(k) <==> k == keys[0];
      assert Docs(cm)[0] == cm.Entry(keys[0]);
    }
  }

  /** Without a key there is an error exactly for no entries, or one blank entry. */
  lemma NothingToLoadExactly(cm: ConfigMap)
    ensures NothingToLoad(cm) <==>
              || |cm.data| + |cm.binaryData| == 0
              || (|cm.data| + |cm.binaryData| == 1
                  && (forall k | k in cm.data :: Blank(cm.data[k]))
                  && (forall k | k in cm.binaryData :: Blank(cm.binaryData[k])))
  {
    OneBlankEntry(cm);
    hide NothingToLoad, Blank;
    if |cm.data| + |cm.binaryData| == 1 {
      OneEntryOneMap(cm);
      assert forall k | k in cm.data :: cm.Has(k) && cm.Entry(k) == cm.data[k];
      assert forall k | k in cm.binaryData :: cm.Has(k) && cm.Entry(k) == cm.binaryData[k];
    }
  }

  /** The keys come in ascending order, each as often as it is listed; with disjoint key sets that is
      once, so every entry is there once. */
  lemma KeysAscending(cm: ConfigMap)
    ensures Ascending(Keys(cm))
    ensures cm.data.Keys !! cm.binaryData.Keys ==> forall k :: multiset(Keys(cm))[k] == if cm.Has(k) then 1 else 0
  {
    SortAscending(Enumerate(cm.data.Keys) + Enumerate(cm.binaryData.Keys));
    hide Ascending, Enumerate, Sort;
  }

  /** A key in both maps is listed twice, and both times with the entry of data. */
  lemma SharedKeyTwice(cm: ConfigMap, k: string)
    requires k in cm.data && k in cm.binaryData
    ensures multiset(Keys(cm))[k] == 2
    ensures forall i | 0 <= i < |Docs(cm)| && Keys(cm)[i] == k :: Docs(cm)[i] == cm.data[k]
  {
  }

  // ---- the stream read back (section 9.1.2 of YAML 1.2.2)

  /** Cuts s at the elements that satisfy p, which are dropped. */
  function SplitOn<T>(p: T -> bool, s: seq<T>): (r: seq<seq<T>>)
    ensures r != []
  {
    if s == [] then [[]]
    else
      var rest := SplitOn(p, s[1..]);
      if p(s[0]) then [[]] + rest else [[s[0]] + rest[0]] + rest[1..]
  }

  lemma {:induction false} SplitOnSeparator<T>(p: T -> bool, a: seq<T>, x: T, b: seq<T>)
    requires p(x)
    ensures SplitOn(p, a + [x] + b) == SplitOn(p, a) + SplitOn(p, b)
  {
    var s := a + [x] + b;
    if a == [] {
      assert s[0] == x && s[1..] == b;
    } else {
      assert s[0] == a[0] && s[1..] == a[1..] + [x] + b;
      SplitOnSeparator(p, a[1..], x, b);
    }
  }

  lemma {:induction false} SplitOnNothing<T>(p: T -> bool, s: seq<T>)
    requires forall x | x in s :: !p(x)
    ensures SplitOn(p, s) == [s]
  {
    if s != [] {
      SplitOnNothing(p, s[1..]);
      assert s == [s[0]] + s[1..];
    }
  }

  predicate IsNewline(c: char) {
    c == '\n'
  }

  function Lines(s: string): seq<string> {
    SplitOn(IsNewline, s)
  }

  type Marker = string -> bool

  /** The documents of a stream: its lines, cut at the marker lines. Which lines count as markers is
      the parser's business, as long as "---" alone is one. */
  function Documents(marker: Marker, s: string): seq<seq<string>> {
    SplitOn(marker, Lines(s))
  }

  lemma LinesOfJoin(a: string, b: string)
    ensures Lines(a + SEPARATOR + b) == Lines(a) + [MARKER] + Lines(b)
  {
    var rest := MARKER + "\n" + b;
    assert a + SEPARATOR + b == a + ['\n'] + rest;
    assert rest == MARKER + ['\n'] + b;
    SplitOnSeparator(IsNewline, a, '\n', rest);
    SplitOnSeparator(IsNewline, MARKER, '\n', b);
    SplitOnNothing(IsNewline, MARKER);
  }

  function DocumentsOfEach(marker: Marker, docs: seq<string>): seq<seq<string>> {
    if docs == [] then []
    else DocumentsOfEach(marker, docs[..|docs| - 1]) + Documents(marker, docs[|docs| - 1])
  }

  /** Splitting the joined stream is splitting each entry on its own: joining neither merges nor
      breaks up documents, whatever the entries hold. */
  lemma {:induction false} StreamHomomorphism(marker: Marker, docs: seq<string>)
    requires docs != [] && marker("---")
    ensures Documents(marker, Join(docs)) == DocumentsOfEach(marker, docs)
  {
    var n := |docs| - 1;
    if n == 0 {
      assert docs[..0] == [] && DocumentsOfEach(marker, docs) == [] + Documents(marker, docs[0]);
    } else {
      var before := Join(docs[..n]);
      assert Join(docs) == before + SEPARATOR + docs[n];
      assert DocumentsOfEach(marker, docs) == DocumentsOfEach(marker, docs[..n]) + SplitOn(marker, Lines(docs[n]));
      StreamHomomorphism(marker, docs[..n]);
      hide Join, DocumentsOfEach, SplitOn, Lines;
      LinesOfJoin(before, docs[n]);
      SplitOnSeparator(marker, Lines(before), MARKER, Lines(docs[n]));
    }
  }

  /** Entries that are single documents come back as they went in. */
  lemma {:induction false} SingleDocumentsRoundTrip(marker: Marker, docs: seq<string>)
    requires docs != [] && marker("---")
    requires forall d, line | d in docs && line in Lines(d) :: !marker(line)
    ensures |Documents(marker, Join(docs))| == |docs|
    ensures forall i | 0 <= i < |docs| :: Documents(marker, Join(docs))[i] == Lines(docs[i])
  {
    StreamHomomorphism(marker, docs);
    SinglesInOrder(marker, docs);
  }

  lemma {:induction false} SinglesInOrder(marker: Marker, docs: seq<string>)
    requires forall d, line | d in docs && line in Lines(d) :: !marker(line)
    ensures |DocumentsOfEach(marker, docs)| == |docs|
    ensures forall i | 0 <= i < |docs| :: DocumentsOfEach(marker, docs)[i] == Lines(docs[i])
  {
    if docs != [] {
      var n := |docs| - 1;
      SinglesInOrder(marker, docs[..n]);
      SplitOnNothing(marker, Lines(docs[n]));
    }
  }

  /** The documents of the entries under some keys, in turn. */
  function DocumentsOfKeys(marker: Marker, cm: ConfigMap, keys: seq<string>): seq<seq<string>>
    requires forall k | k in keys :: cm.Has(k)
  {
    if keys == [] then []
    else
      var k := keys[|keys| - 1];
      assert k in keys && cm.Has(k);
      DocumentsOfKeys(marker, cm, keys[..|keys| - 1])
      + Documents(marker, if k in cm.data then cm.data[k] else cm.binaryData[k])
  }

  lemma {:induction false} EachIsOfKeys(marker: Marker, cm: ConfigMap, keys: seq<string>)
    requires forall k | k in keys :: cm.Has(k)
    ensures DocumentsOfEach(marker, EntriesOf(cm, keys)) == DocumentsOfKeys(marker, cm, keys)
  {
    if keys != [] {
      var n := |keys| - 1;
      EachIsOfKeys(marker, cm, keys[..n]);
      assert EntriesOf(cm, keys)[..n] == EntriesOf(cm, keys[..n]);
    }
  }

  /** The law for a ConfigMap with at least one entry, whatever order its keys are walked in: the
      documents of the stream are those of its entries, in ascending key order, each entry once if the
      key sets are disjoint. */
  lemma StreamOfConfigMap(marker: Marker, cm: ConfigMap, walked: seq<string>)
    requires multiset(walked) == cm.Listing() && walked != [] && marker("---")
    ensures Sort(walked) == Keys(cm) && Ascending(Keys(cm))
    ensures Documents(marker, Join(Docs(cm))) == DocumentsOfKeys(marker, cm, Keys(cm))
    ensures cm.data.Keys !! cm.binaryData.Keys ==> forall k :: multiset(Keys(cm))[k] == if cm.Has(k) then 1 else 0
  {
    AnyOrder(cm, walked);
    KeysAscending(cm);
    EachIsOfKeys(marker, cm, Keys(cm));
    SameMembers(walked, Keys(cm));
    StreamHomomorphism(marker, Docs(cm));
  }

  /** Two blank entries are not an error: their stream is not blank. */
  lemma TwoBlankEntriesLoad(k: string, l: string, x: string, y: string)
    requires k != l && Blank(x) && Blank(y)
    ensures !NothingToLoad(ConfigMap(map[k := x, l := y], map[]))
    ensures !Blank(Join(Docs(ConfigMap(map[k := x, l := y], map[]))))
  {
    var cm := ConfigMap(map[k := x, l := y], map[]);
    assert cm.data.Keys == {k, l};
    assert |cm.data| == |cm.data.Keys| == 2;
    NothingToLoadExactly(cm);
    BlankJoin(Docs(cm));
  }
}
