/** The object store, as far as the program calls it. */
module S3 {
  import opened Wrappers
  import opened Paging
  import opened Text

  type Bytes = seq<bv8>

  /** Seconds since the epoch. */
  type Time = real

  datatype Object = Object(data: Bytes, mtime: Option<Time>)

  type Objects = map<string, Object>

  /** What becomes of one `upload_file` and the `head_object` after it. */
  datatype Fate =
    | SendRaised(code: string, landed: bool)
    | HeadRaised(code: string)
    | HeadAnswered(checksum: Option<string>, length: nat)

  datatype DeleteAnswer =
    | DeleteRaised
    | DeleteAnswered(deleted: seq<string>, errors: seq<string>)

  function Under(objects: Objects, prefix: string): set<string> {
    set k | k in objects && prefix <= k
  }

  function UpToSlash(prefix: string, key: string): string
    requires prefix <= key && '/' in key[|prefix|..]
  {
    key[..|prefix| + IndexOf(key[|prefix|..], '/') + 1]
  }

  /** The `CommonPrefixes` of a listing with delimiter `/`. */
  function CommonPrefixes(objects: Objects, prefix: string): set<string> {
    set k | k in objects && prefix <= k && '/' in k[|prefix|..] :: UpToSlash(prefix, k)
  }

  /** `after` lacks some of the `keys` of `before` and is otherwise the same. */
  predicate OnlyLost(before: Objects, after: Objects, keys: set<string>) {
    (forall k :: k in after ==> k in before && after[k] == before[k]) &&
    (forall k :: k in before && k !in keys ==> k in after)
  }

  class S3Client {
    const bucket: string
    /** What the n-th upload attempt of a key meets. */
    const fate: (string, nat) -> Fate
    var objects: Objects
    /** How many delete requests have raised or reported an error for a key. */
    var failures: nat

    constructor (bucket: string, fate: (string, nat) -> Fate)
      ensures this.bucket == bucket && this.fate == fate && objects == map[] && failures == 0
    {
      this.bucket, this.fate := bucket, fate;
      objects, failures := map[], 0;
    }

    /** `list_objects_v2` */
    method ListObjects(prefix: string, token: Option<Cursor<string>>) returns (page: Page<string>)
      ensures token.Some? ==> Serves(page, token.value)
      ensures token.None? ==> Lists(page.items + Owed(page.next), Under(objects, prefix))
    {
      page := Answer(Under(objects, prefix), token);
    }

    /** `list_objects_v2` with `Delimiter="/"` */
    method ListDelimited(prefix: string, token: Option<Cursor<string>>) returns (page: Page<string>)
      ensures token.Some? ==> Serves(page, token.value)
      ensures token.None? ==> Lists(page.items + Owed(page.next), CommonPrefixes(objects, prefix))
    {
      page := Answer(CommonPrefixes(objects, prefix), token);
    }

    static method Answer(results: set<string>, token: Option<Cursor<string>>) returns (page: Page<string>)
      ensures token.Some? ==> Serves(page, token.value)
      ensures token.None? ==> Lists(page.items + Owed(page.next), results)
    {
      var cursor;
      if token.Some? {
        cursor := token.value;
      } else {
        var all := Enumerate(results);
        cursor := Open(all);
      }
      page := Serve(cursor, 1000);
    }

    method PutObject(key: string, data: Bytes, now: Time)
      modifies this`objects
      ensures objects == old(objects)[key := Object(data, Some(now))]
    {
      objects := objects[key := Object(data, Some(now))];
    }

    /** `upload_file`: a returning call has stored the bytes, a raising one may have. */
    method UploadFile(key: string, data: Bytes, now: Time, attempt: nat) returns (fate: Fate)
      modifies this`objects
      ensures fate == this.fate(key, attempt)
      ensures objects == if fate.SendRaised? && !fate.landed then old(objects)
                         else old(objects)[key := Object(data, Some(now))]
    {
      fate := this.fate(key, attempt);
      if !fate.SendRaised? || fate.landed {
        objects := objects[key := Object(data, Some(now))];
      }
    }

    /** `delete_objects`: any of the keys may be refused, and the call itself may raise. */
    method DeleteObjects(keys: seq<string>) returns (answer: DeleteAnswer)
      requires |keys| <= 1000
      modifies this`objects, this`failures
      ensures failures == old(failures) + if answer.DeleteRaised? || answer.errors != [] then 1 else 0
      ensures OnlyLost(old(objects), objects, set k | k in keys)
      ensures answer.DeleteAnswered? && answer.errors == [] ==>
                |answer.deleted| == |keys| && forall k :: k in keys ==> k !in objects
    {
      var deleted: seq<string>, errors: seq<string> := [], [];
      for i := 0 to |keys|
        invariant OnlyLost(old(objects), objects, set k | k in keys) && failures == old(failures)
        invariant errors == [] ==> |deleted| == i && forall k :: k in keys[..i] ==> k !in objects
      {
        var refused: bool := *;
        if refused {
          errors := errors + [keys[i]];
        } else {
          objects := objects - {keys[i]};
          deleted := deleted + [keys[i]];
        }
      }
      var raised: bool := *;
      answer := if raised then DeleteRaised else DeleteAnswered(deleted, errors);
      if raised || errors != [] {
        failures := failures + 1;
      }
    }
  }
}
