/** The binding matcher of webhook.go: keep the bindings of the Pod's namespace, then those
    that name the Pod's service account, resolved into matched credentials with no two
    entries sharing (role, database, output path, output file). */
module Matcher {
  import opened Types
  import opened Sequences

  /** The output path a binding gets when its own is empty. */
  const DefaultOutputPath := "/etc/database"

  // ----- filterBindings -----

  /** The bindings whose namespace is `namespace`, in their original order. */
  function InNamespace(bindings: seq<Binding>, namespace: string): (r: seq<Binding>)
    ensures forall b :: b in r ==> b in bindings && b.namespace == namespace
    ensures |r| <= |bindings|
    decreases |bindings|
  {
    if bindings == [] then []
    else
      var last := bindings[|bindings| - 1];
      InNamespace(bindings[..|bindings| - 1], namespace) + (if last.namespace == namespace then [last] else [])
  }

  /** Every binding of the namespace is kept, as often as it occurs; no other is. */
  lemma {:induction false} InNamespaceCounts(bindings: seq<Binding>, namespace: string)
    ensures forall b :: multiset(InNamespace(bindings, namespace))[b] ==
                        if b.namespace == namespace then multiset(bindings)[b] else 0
    decreases |bindings|
  {
    if bindings != [] {
      var prefix := bindings[..|bindings| - 1];
      InNamespaceCounts(prefix, namespace);
      assert bindings == prefix + [bindings[|bindings| - 1]];
    }
  }

  /** The kept bindings appear in the order of the input. */
  lemma {:induction false} InNamespaceInOrder(bindings: seq<Binding>, namespace: string)
    ensures Subsequence(InNamespace(bindings, namespace), bindings)
    decreases |bindings|
  {
    if bindings != [] {
      var prefix, last := bindings[..|bindings| - 1], bindings[|bindings| - 1];
      InNamespaceInOrder(prefix, namespace);
      assert bindings == prefix + [last];
      if last.namespace == namespace {
        SubsequenceAppendBoth(InNamespace(prefix, namespace), prefix, last);
      } else {
        assert InNamespace(bindings, namespace) == InNamespace(prefix, namespace);
        SubsequenceExtend(InNamespace(prefix, namespace), prefix, last);
      }
    }
  }

  /** filterBindings: one pass that appends each binding of the namespace to a fresh list. */
  method FilterBindings(bindings: seq<Binding>, namespace: string) returns (filtered: seq<Binding>)
    ensures filtered == InNamespace(bindings, namespace)
  {
    filtered := [];
    for i := 0 to |bindings|
      invariant filtered == InNamespace(bindings[..i], namespace)
    {
      assert bindings[..i + 1][..i] == bindings[..i];
      if bindings[i].namespace == namespace {
        filtered := filtered + [bindings[i]];
      }
    }
    assert bindings[..|bindings|] == bindings;
  }

  // ----- appendIfMissing -----

  predicate HasKey(ds: seq<Database>, k: DatabaseKey) {
    exists i :: 0 <= i < |ds| && Key(ds[i]) == k
  }

  predicate NoDuplicateKeys(ds: seq<Database>) {
    forall i, j :: 0 <= i < j < |ds| ==> Key(ds[i]) != Key(ds[j])
  }

  /** `ds` with `d` added at the end, unless an entry with the same key is already there,
      in which case that earlier entry stays and `d` is dropped. */
  function AddIfKeyMissing(ds: seq<Database>, d: Database): (r: seq<Database>)
    ensures HasKey(r, Key(d))
    ensures HasKey(ds, Key(d)) ==> r == ds
    ensures !HasKey(ds, Key(d)) ==> r == ds + [d]
    ensures NoDuplicateKeys(ds) ==> NoDuplicateKeys(r)
  {
    if HasKey(ds, Key(d)) then ds
    else
      var r := ds + [d];
      assert r[|ds|] == d;
      r
  }

  /** appendIfMissing: scan for an entry equal to `d` on the key fields; return the slice
      as it is on the first hit, or with `d` appended after a full scan. */
  method AppendIfMissing(slice: seq<Database>, d: Database) returns (r: seq<Database>)
    ensures r == AddIfKeyMissing(slice, d)
  {
    for i := 0 to |slice|
      invariant forall j :: 0 <= j < i ==> Key(slice[j]) != Key(d)
    {
      var ele := slice[i];
      if ele.role == d.role && ele.database == d.database &&
         ele.outputPath == d.outputPath && ele.outputFile == d.outputFile {
        return slice;
      }
    }
    return slice + [d];
  }

  // ----- matchBindings -----

  /** An empty output path resolves to the default; any other is kept. */
  function ResolvedOutputPath(outputPath: string): (r: string)
    ensures r != ""
    ensures outputPath == "" ==> r == "/etc/database"
    ensures outputPath != "" ==> r == outputPath
  {
    if outputPath == "" then DefaultOutputPath else outputPath
  }

  /** The matched credential a binding contributes. */
  function ToDatabase(b: Binding): (r: Database)
    ensures Key(r) == DatabaseKey(b.role, b.database, ResolvedOutputPath(b.outputPath), b.outputFile)
    ensures r.outputPath != ""
    ensures r.vaultContainer == b.container
  {
    Database(b.database, b.role, ResolvedOutputPath(b.outputPath), b.outputFile, b.container)
  }

  /** The credentials matched for `serviceAccount`: bindings naming exactly that account,
      resolved, de-duplicated on their key with the first one kept. */
  function MatchedDatabases(bindings: seq<Binding>, serviceAccount: string): (r: seq<Database>)
    ensures NoDuplicateKeys(r)
    ensures |r| <= |bindings|
    decreases |bindings|
  {
    if bindings == [] then []
    else
      var last := bindings[|bindings| - 1];
      var m := MatchedDatabases(bindings[..|bindings| - 1], serviceAccount);
      if last.serviceAccount == serviceAccount then AddIfKeyMissing(m, ToDatabase(last)) else m
  }

  /** Binding `i` names the service account and no earlier binding that does has its key. */
  predicate FirstOfKey(bindings: seq<Binding>, serviceAccount: string, i: int)
    requires 0 <= i < |bindings|
  {
    bindings[i].serviceAccount == serviceAccount &&
    forall j :: 0 <= j < i && bindings[j].serviceAccount == serviceAccount ==>
      Key(ToDatabase(bindings[j])) != Key(ToDatabase(bindings[i]))
  }

  /** `d` is what some binding naming `serviceAccount` resolves to. */
  predicate FromMatchingBinding(bindings: seq<Binding>, serviceAccount: string, d: Database) {
    exists j :: 0 <= j < |bindings| && bindings[j].serviceAccount == serviceAccount && d == ToDatabase(bindings[j])
  }

  /** `d` is what the first binding of its key naming `serviceAccount` resolves to. */
  predicate FromFirstOfKey(bindings: seq<Binding>, serviceAccount: string, d: Database) {
    exists i :: 0 <= i < |bindings| && FirstOfKey(bindings, serviceAccount, i) && d == ToDatabase(bindings[i])
  }

  /** Whether binding `i` is the first of its key does not depend on the bindings after it. */
  lemma FirstOfKeyPrefix(bindings: seq<Binding>, serviceAccount: string)
    requires bindings != []
    ensures forall i :: 0 <= i < |bindings| - 1 ==>
              (FirstOfKey(bindings[..|bindings| - 1], serviceAccount, i) <==> FirstOfKey(bindings, serviceAccount, i))
  {
  }

  /** The positions, in increasing order, of the bindings that name `serviceAccount` and are
      the first such binding of their key. */
  function FirstIndices(bindings: seq<Binding>, serviceAccount: string): (r: seq<int>)
    ensures forall k :: 0 <= k < |r| ==> 0 <= r[k] < |bindings| && FirstOfKey(bindings, serviceAccount, r[k])
    ensures forall k1, k2 :: 0 <= k1 < k2 < |r| ==> r[k1] < r[k2]
    ensures forall i :: 0 <= i < |bindings| && FirstOfKey(bindings, serviceAccount, i) ==> i in r
    decreases |bindings|
  {
    if bindings == [] then []
    else
      var n := |bindings|;
      var fi := FirstIndices(bindings[..n - 1], serviceAccount);
      FirstOfKeyPrefix(bindings, serviceAccount);
      assert forall k :: 0 <= k < |fi| ==> fi[k] < n - 1;
      fi + (if FirstOfKey(bindings, serviceAccount, n - 1) then [n - 1] else [])
  }

  /** The positions for all bindings are those for all but the last, then the last's when it
      is the first of its key. */
  lemma FirstIndicesLast(bindings: seq<Binding>, serviceAccount: string)
    requires bindings != []
    ensures FirstIndices(bindings, serviceAccount) ==
            FirstIndices(bindings[..|bindings| - 1], serviceAccount) +
            (if FirstOfKey(bindings, serviceAccount, |bindings| - 1) then [|bindings| - 1] else [])
  {
  }

  /** Each matched entry comes from a binding whose service account is exactly the Pod's. */
  lemma {:induction false} MatchedFromMatchingBinding(bindings: seq<Binding>, serviceAccount: string)
    ensures forall k :: 0 <= k < |MatchedDatabases(bindings, serviceAccount)| ==>
              FromMatchingBinding(bindings, serviceAccount, MatchedDatabases(bindings, serviceAccount)[k])
    decreases |bindings|
  {
    if bindings != [] {
      var prefix, last := bindings[..|bindings| - 1], bindings[|bindings| - 1];
      MatchedFromMatchingBinding(prefix, serviceAccount);
      var m := MatchedDatabases(prefix, serviceAccount);
      var r := MatchedDatabases(bindings, serviceAccount);
      assert m <= r;
      forall k | 0 <= k < |r| ensures FromMatchingBinding(bindings, serviceAccount, r[k]) {
        if k < |m| {
          assert FromMatchingBinding(prefix, serviceAccount, m[k]);
          var j :| 0 <= j < |prefix| && prefix[j].serviceAccount == serviceAccount && m[k] == ToDatabase(prefix[j]);
          assert bindings[j] == prefix[j];
        } else {
          assert bindings[|bindings| - 1] == last;
        }
      }
    }
  }

  /** Each matched entry is what the first binding of its key naming the Pod's service account
      resolves to; in particular that binding names the service account exactly. */
  lemma MatchedSound(bindings: seq<Binding>, serviceAccount: string)
    ensures forall k :: 0 <= k < |MatchedDatabases(bindings, serviceAccount)| ==>
              FromMatchingBinding(bindings, serviceAccount, MatchedDatabases(bindings, serviceAccount)[k])
    ensures forall k :: 0 <= k < |MatchedDatabases(bindings, serviceAccount)| ==>
              FromFirstOfKey(bindings, serviceAccount, MatchedDatabases(bindings, serviceAccount)[k])
  {
    MatchedFromMatchingBinding(bindings, serviceAccount);
    MatchedInOrder(bindings, serviceAccount);
    var r, fi := MatchedDatabases(bindings, serviceAccount), FirstIndices(bindings, serviceAccount);
    forall k | 0 <= k < |r| ensures FromFirstOfKey(bindings, serviceAccount, r[k]) {
      assert FirstOfKey(bindings, serviceAccount, fi[k]);
    }
  }

  /** Every binding naming the service account has its key among the matched entries. */
  lemma {:induction false} MatchedCoversEveryKey(bindings: seq<Binding>, serviceAccount: string)
    ensures forall i :: 0 <= i < |bindings| && bindings[i].serviceAccount == serviceAccount ==>
              HasKey(MatchedDatabases(bindings, serviceAccount), Key(ToDatabase(bindings[i])))
    decreases |bindings|
  {
    if bindings != [] {
      var prefix := bindings[..|bindings| - 1];
      MatchedCoversEveryKey(prefix, serviceAccount);
      var m := MatchedDatabases(prefix, serviceAccount);
      var r := MatchedDatabases(bindings, serviceAccount);
      assert m <= r;
      forall i | 0 <= i < |bindings| - 1 && bindings[i].serviceAccount == serviceAccount
        ensures HasKey(r, Key(ToDatabase(bindings[i])))
      {
        assert bindings[i] == prefix[i];
        var k :| 0 <= k < |m| && Key(m[k]) == Key(ToDatabase(prefix[i]));
        assert r[k] == m[k];
      }
    }
  }

  /** The last binding, when it names the service account, is the first of its key exactly
      when the entries matched before it do not have its key. */
  lemma LastFirstOfKeyIffNewKey(bindings: seq<Binding>, serviceAccount: string)
    requires bindings != [] && bindings[|bindings| - 1].serviceAccount == serviceAccount
    ensures FirstOfKey(bindings, serviceAccount, |bindings| - 1) <==>
            !HasKey(MatchedDatabases(bindings[..|bindings| - 1], serviceAccount), Key(ToDatabase(bindings[|bindings| - 1])))
  {
    var n := |bindings|;
    var prefix, last := bindings[..n - 1], bindings[n - 1];
    var m := MatchedDatabases(prefix, serviceAccount);
    MatchedFromMatchingBinding(prefix, serviceAccount);
    MatchedCoversEveryKey(prefix, serviceAccount);
    if FirstOfKey(bindings, serviceAccount, n - 1) {
      forall k | 0 <= k < |m| ensures Key(m[k]) != Key(ToDatabase(last)) {
        assert FromMatchingBinding(prefix, serviceAccount, m[k]);
        var j :| 0 <= j < |prefix| && prefix[j].serviceAccount == serviceAccount && m[k] == ToDatabase(prefix[j]);
        assert prefix[j] == bindings[j];
      }
    } else {
      var j :| 0 <= j < n - 1 && bindings[j].serviceAccount == serviceAccount &&
               Key(ToDatabase(bindings[j])) == Key(ToDatabase(last));
      assert prefix[j] == bindings[j];
    }
  }

  /** First-seen wins: the first binding of each key is matched as it is, override included. */
  lemma {:induction false} MatchedFirstSeenWins(bindings: seq<Binding>, serviceAccount: string, i: int)
    requires 0 <= i < |bindings| && FirstOfKey(bindings, serviceAccount, i)
    ensures ToDatabase(bindings[i]) in MatchedDatabases(bindings, serviceAccount)
    decreases |bindings|
  {
    var n := |bindings|;
    var prefix, last := bindings[..n - 1], bindings[n - 1];
    var m := MatchedDatabases(prefix, serviceAccount);
    var r := MatchedDatabases(bindings, serviceAccount);
    assert m <= r;
    if i < n - 1 {
      assert FirstOfKey(prefix, serviceAccount, i);
      MatchedFirstSeenWins(prefix, serviceAccount, i);
      var k :| 0 <= k < |m| && m[k] == ToDatabase(bindings[i]);
      assert r[k] == m[k];
    } else {
      LastFirstOfKeyIffNewKey(bindings, serviceAccount);
      assert r == m + [ToDatabase(last)];
    }
  }

  /** One more binding adds an entry and a position when it is the first of its key, and
      neither otherwise. */
  lemma MatchedStep(bindings: seq<Binding>, serviceAccount: string)
    requires bindings != []
    ensures var n := |bindings|;
            if FirstOfKey(bindings, serviceAccount, n - 1) then
              MatchedDatabases(bindings, serviceAccount) ==
                MatchedDatabases(bindings[..n - 1], serviceAccount) + [ToDatabase(bindings[n - 1])] &&
              FirstIndices(bindings, serviceAccount) == FirstIndices(bindings[..n - 1], serviceAccount) + [n - 1]
            else
              MatchedDatabases(bindings, serviceAccount) == MatchedDatabases(bindings[..n - 1], serviceAccount) &&
              FirstIndices(bindings, serviceAccount) == FirstIndices(bindings[..n - 1], serviceAccount)
  {
    if bindings[|bindings| - 1].serviceAccount == serviceAccount {
      LastFirstOfKeyIffNewKey(bindings, serviceAccount);
    }
    FirstIndicesLast(bindings, serviceAccount);
  }

  /** Entries resolved from positions of all but the last binding stay resolved from the same
      positions of all the bindings, and appending the last binding's entry with its position
      keeps them paired. */
  lemma ResolvedPositionsExtend(bindings: seq<Binding>, m: seq<Database>, fi: seq<int>,
                                r: seq<Database>, fr: seq<int>)
    requires bindings != [] && |m| == |fi|
    requires forall k :: 0 <= k < |fi| ==>
               0 <= fi[k] < |bindings| - 1 && m[k] == ToDatabase(bindings[..|bindings| - 1][fi[k]])
    requires (r == m && fr == fi) ||
             (r == m + [ToDatabase(bindings[|bindings| - 1])] && fr == fi + [|bindings| - 1])
    ensures |r| == |fr|
    ensures forall k :: 0 <= k < |fr| ==> r[k] == ToDatabase(bindings[fr[k]])
  {
    forall k | 0 <= k < |fr| ensures r[k] == ToDatabase(bindings[fr[k]]) {
      if k < |fi| {
        assert r[k] == m[k] && fr[k] == fi[k];
        assert bindings[..|bindings| - 1][fi[k]] == bindings[fi[k]];
      }
    }
  }

  /** The matched entries are exactly the first bindings of each key naming the service
      account, resolved, in the order of those bindings. */
  lemma {:induction false} MatchedInOrder(bindings: seq<Binding>, serviceAccount: string)
    ensures |MatchedDatabases(bindings, serviceAccount)| == |FirstIndices(bindings, serviceAccount)|
    ensures forall k :: 0 <= k < |FirstIndices(bindings, serviceAccount)| ==>
              MatchedDatabases(bindings, serviceAccount)[k] == ToDatabase(bindings[FirstIndices(bindings, serviceAccount)[k]])
    decreases |bindings|
  {
    if bindings != [] {
      var n := |bindings|;
      var prefix := bindings[..n - 1];
      MatchedInOrder(prefix, serviceAccount);
      MatchedStep(bindings, serviceAccount);
      ResolvedPositionsExtend(bindings, MatchedDatabases(prefix, serviceAccount), FirstIndices(prefix, serviceAccount),
                              MatchedDatabases(bindings, serviceAccount), FirstIndices(bindings, serviceAccount));
    }
  }

  /** Nothing is matched exactly when no binding names the service account. */
  lemma MatchedEmptyIff(bindings: seq<Binding>, serviceAccount: string)
    ensures MatchedDatabases(bindings, serviceAccount) == [] <==>
            forall i :: 0 <= i < |bindings| ==> bindings[i].serviceAccount != serviceAccount
  {
    MatchedFromMatchingBinding(bindings, serviceAccount);
    MatchedCoversEveryKey(bindings, serviceAccount);
  }

  /** Two bindings that differ only in their container override give one entry: the first. */
  lemma DuplicateBindingsMatchOnce(first: Binding, second: Binding, serviceAccount: string)
    requires first.serviceAccount == serviceAccount
    requires second == first.(container := second.container)
    ensures MatchedDatabases([first, second], serviceAccount) == [ToDatabase(first)]
  {
    assert [first, second][..1] == [first];
    assert [first][..0] == [];
    assert Key([ToDatabase(first)][0]) == Key(ToDatabase(second));
  }

  /** matchBindings: one pass over the bindings, resolving the output path of each binding
      that names the service account and appending it unless its key is already present. */
  method MatchBindings(bindings: seq<Binding>, serviceAccount: string) returns (matched: seq<Database>)
    ensures matched == MatchedDatabases(bindings, serviceAccount)
  {
    matched := [];
    for i := 0 to |bindings|
      invariant matched == MatchedDatabases(bindings[..i], serviceAccount)
    {
      assert bindings[..i + 1][..i] == bindings[..i];
      var binding := bindings[i];
      if binding.serviceAccount == serviceAccount {
        var output := binding.outputPath;
        if output == "" {
          output := DefaultOutputPath;
        }
        matched := AppendIfMissing(matched, Database(binding.database, binding.role, output,
                                                     binding.outputFile, binding.container));
      }
    }
    assert bindings[..|bindings|] == bindings;
  }
}
