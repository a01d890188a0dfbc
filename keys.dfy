/** Work-queue keys: MetaNamespaceKeyFunc builds "namespace/name" (or just
    "name" for a cluster-scoped object) and SplitMetaNamespaceKey takes such a
    key apart again. */
module Keys {
  import opened Wrappers
  import opened RestoreTypes

  /** The key MetaNamespaceKeyFunc computes for an object with metadata. */
  function MetaNamespaceKey(k: ObjectKey): (key: string)
    ensures |key| >= |k.name| && key[|key| - |k.name|..] == k.name
    ensures |k.namespace| > 0 ==> |key| == |k.namespace| + 1 + |k.name| && key[..|k.namespace|] == k.namespace && key[|k.namespace|] == '/'
    ensures |k.namespace| == 0 ==> key == k.name
  {
    if |k.namespace| > 0 then k.namespace + "/" + k.name else k.name
  }

  /** Position of the first '/' in s. */
  function IndexOfSlash(s: string): (r: Option<nat>)
    ensures r.Some? ==> r.value < |s| && s[r.value] == '/' && '/' !in s[..r.value]
    ensures r.None? <==> '/' !in s
  {
    if s == [] then None
    else if s[0] == '/' then Some(0)
    else
      match IndexOfSlash(s[1..])
      case None => None
      case Some(i) =>
        assert s[1..][..i] == s[1..i + 1];
        assert s[..i + 1] == [s[0]] + s[1..i + 1];
        Some(i + 1)
  }

  predicate HasTwoSlashes(s: string)
  {
    exists i, j :: 0 <= i < j < |s| && s[i] == '/' && s[j] == '/'
  }

  /** Splits a key on '/': one part is a name without namespace, two parts
      are namespace and name, more parts are an error. */
  function SplitMetaNamespaceKey(key: string): (r: Result<ObjectKey, string>)
    ensures r.Err? <==> HasTwoSlashes(key)
    ensures r.Ok? ==> '/' !in r.value.namespace && '/' !in r.value.name
    ensures r.Ok? && r.value.namespace == "" ==> key == r.value.name || key == "/" + r.value.name
    ensures r.Ok? && r.value.namespace != "" ==> key == MetaNamespaceKey(r.value)
  {
    match IndexOfSlash(key)
    case None =>
      Ok(ObjectKey("", key))
    case Some(i) =>
      var rest := key[i + 1..];
      match IndexOfSlash(rest)
      case Some(j) =>
        assert key[i] == '/' && key[i + 1 + j] == '/';
        Err("unexpected key format: " + key)
      case None =>
        assert key == key[..i] + "/" + rest;
        assert forall a | 0 <= a < i :: key[a] == key[..i][a];
        assert forall a | i < a < |key| :: key[a] == rest[a - i - 1];
        Ok(ObjectKey(key[..i], rest))
  }

  /** Round trip: splitting the key built for an object gives back its
      namespace and name, provided neither contains '/'. */
  lemma SplitJoin(k: ObjectKey)
    requires '/' !in k.namespace && '/' !in k.name
    ensures SplitMetaNamespaceKey(MetaNamespaceKey(k)) == Ok(k)
  {
    var key := MetaNamespaceKey(k);
    if |k.namespace| > 0 {
      var i := |k.namespace|;
      assert key[i] == '/';
      assert '/' !in key[..i] by { assert key[..i] == k.namespace; }
      assert IndexOfSlash(key) == Some(i);
      assert key[i + 1..] == k.name;
    } else {
      assert IndexOfSlash(key) == None;
    }
  }
}
