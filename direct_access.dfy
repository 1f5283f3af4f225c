/** The direct-access handler that runs before the application renders
    (src/main.tsx): a path typed or refreshed directly is remembered in
    session storage so the router can restore it after load. */
module DirectAccess {
  import opened Text

  const RedirectKey := "redirectPath"

  /** Whether `path` is remembered: not the root, no '.', and no "api"
      anywhere in it. */
  predicate ShouldStoreRedirect(path: string)
    ensures ShouldStoreRedirect(path) ==> path != "/" && forall i :: !OccursAt(path, "api", i)
  {
    ContainsIffOccurs(path, "api");
    path != "/" && !Contains(path, ".") && !Contains(path, "api")
  }

  /** The root path is never remembered. */
  lemma RootNeverStored()
    ensures !ShouldStoreRedirect("/")
  {
  }

  /** A path with a '.' anywhere in it (a file such as /favicon.ico) is never
      remembered. */
  lemma DotNeverStored(path: string)
    requires '.' in path
    ensures !ShouldStoreRedirect(path)
  {
    ContainsChar(path, '.');
  }

  /** A path with "api" anywhere in it is never remembered, even when "api"
      is part of a longer word. */
  lemma ApiNeverStored(pre: string, post: string)
    ensures !ShouldStoreRedirect(pre + "api" + post)
  {
    ContainsInfix(pre, "api", post);
  }

  /** "/rapid" is not remembered: it contains "api". */
  lemma RapidNotStored()
    ensures !ShouldStoreRedirect("/rapid")
  {
    ApiNeverStored("/r", "d");
    assert "/r" + "api" + "d" == "/rapid";
  }

  /** Exactly the paths other than the root that contain no '.' and no
      occurrence of "api" at any position are remembered. */
  lemma StoredExactly(path: string)
    ensures ShouldStoreRedirect(path) <==>
      path != "/" && '.' !in path && !exists i :: OccursAt(path, "api", i)
  {
    ContainsChar(path, '.');
    ContainsIffOccurs(path, "api");
  }

  /** The browser's `sessionStorage`: string keys to string values. */
  class SessionStorage {
    var items: map<string, string>

    constructor ()
      ensures items == map[]
    {
      items := map[];
    }

    /** `setItem(key, value)`. */
    method SetItem(key: string, value: string)
      modifies this
      ensures items == old(items)[key := value]
    {
      items := items[key := value];
    }
  }

  /** `handleDirectPageAccess` for the current `path`: a path that should be
      remembered is stored verbatim under "redirectPath"; otherwise storage
      is left as it was. */
  method HandleDirectPageAccess(path: string, storage: SessionStorage)
    modifies storage
    ensures ShouldStoreRedirect(path) ==> storage.items == old(storage.items)[RedirectKey := path]
    ensures !ShouldStoreRedirect(path) ==> storage.items == old(storage.items)
  {
    if ShouldStoreRedirect(path) {
      storage.SetItem(RedirectKey, path);
    }
  }
}
