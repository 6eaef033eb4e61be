/** The two pieces of browser state the core touches: the registry of
    object URLs (`URL.createObjectURL` / `URL.revokeObjectURL`) and the
    `localStorage` entry that holds the recent predictions. */
module Browser {
  import opened Wrappers
  import opened Text
  import opened Json

  /** An uploaded file as the page sees it: `file.size` in bytes and the
      declared MIME type `file.type`. */
  datatype File = File(name: string, size: nat, mimeType: string)

  /** The URL minted by the `serial`-th call of `URL.createObjectURL`. */
  function BlobUrl(serial: nat): string
  {
    "blob:" + DecimalString(serial)
  }

  lemma BlobUrlInjective(a: nat, b: nat)
    requires BlobUrl(a) == BlobUrl(b)
    ensures a == b
  {
    assert BlobUrl(a)[5..] == DecimalString(a);
    assert BlobUrl(b)[5..] == DecimalString(b);
    DecimalStringInjective(a, b);
  }

  datatype UrlEvent = Created(url: string) | Revoked(url: string)

  /** The browser's object-URL registry. `live` holds the URLs created and
      not yet revoked; `log` records every create and revoke call in order. */
  class ObjectUrls {
    var minted: nat
    ghost var live: set<string>
    ghost var log: seq<UrlEvent>

    /** Every live URL was minted by this registry. */
    ghost predicate Valid()
      reads this
    {
      forall u :: u in live ==> exists k: nat :: k < minted && u == BlobUrl(k)
    }

    constructor ()
      ensures Valid() && minted == 0 && live == {} && log == []
    {
      minted, live, log := 0, {}, [];
    }

    /** `URL.createObjectURL(file)`: a URL that is not live yet, now live. */
    method Create(file: File) returns (url: string)
      requires Valid()
      modifies this
      ensures Valid()
      ensures url == BlobUrl(old(minted)) && url !in old(live)
      ensures minted == old(minted) + 1
      ensures live == old(live) + {url} && log == old(log) + [Created(url)]
    {
      url := BlobUrl(minted);
      if url in live {
        var k: nat :| k < minted && url == BlobUrl(k);
        BlobUrlInjective(k, minted);
        assert false;
      }
      minted := minted + 1;
      live := live + {url};
      log := log + [Created(url)];
    }

    /** `URL.revokeObjectURL(url)`: `url` is no longer live; revoking a URL
        that is not live changes nothing else. */
    method Revoke(url: string)
      requires Valid()
      modifies this
      ensures Valid() && minted == old(minted)
      ensures live == old(live) - {url} && log == old(log) + [Revoked(url)]
    {
      live := live - {url};
      log := log + [Revoked(url)];
    }
  }

  /** What `localStorage.getItem('recentPredictions')` holds: a serialized
      list of records, or text that `JSON.parse` rejects. */
  datatype Persisted = Entries(records: seq<Record>) | Malformed(text: string)

  /** The `localStorage` entry under the key `recentPredictions`. */
  class LocalStorage {
    var recentPredictions: Option<Persisted>

    constructor (initial: Option<Persisted>)
      ensures recentPredictions == initial
    {
      recentPredictions := initial;
    }
  }
}
