/**
 * The second-generation Builder API prototype: a bearer-token request
 * guard, and show, create and update of origins kept in an in-memory map
 * from origin name to origin.
 *
 * The random id a new origin gets is an input; the mutex around the map
 * and the JSON encoding are left out.
 */
module BuilderApi {
  import Wrappers
  import Str = Text
  type Option<T> = Wrappers.Option<T>

  newtype u64 = x: int | 0 <= x < 0x1_0000_0000_0000_0000

  /** `is_valid`: the header splits on ' ' into exactly "Bearer" and "bobo". */
  predicate IsValid(key: string)
  {
    Str.Split(key, ' ') == ["Bearer", "bobo"]
  }

  /**
   * The only valid header is the bearer credential "Bearer bobo", in the
   * form of section 2.1 of RFC 6750.
   */
  lemma IsValidIff(key: string)
    ensures IsValid(key) <==> key == "Bearer bobo"
  {
    var parts := ["Bearer", "bobo"];
    assert Str.Join(parts, ' ') == "Bearer bobo" by {
      assert parts[1..] == ["bobo"];
      assert Str.Join(parts, ' ') == "Bearer" + [' '] + "bobo";
    }
    if IsValid(key) {
      Str.JoinSplit(key, ' ');
    }
    if key == "Bearer bobo" {
      assert ' ' !in parts[0] && ' ' !in parts[1];
      Str.SplitJoin(parts, ' ');
    }
  }

  datatype Status = Forbidden

  datatype ApiKey = ApiKey(key: string)

  datatype Outcome = Success(apiKey: ApiKey) | Failure(status: Status)

  /**
   * `ApiKey::from_request`: `keys` are the request's Authorization
   * headers, in order. Exactly one, and valid, or the request is
   * Forbidden.
   */
  function FromRequest(keys: seq<string>): (o: Outcome)
    ensures o.Success? <==> |keys| == 1 && keys[0] == "Bearer bobo"
    ensures o.Success? ==> o.apiKey == ApiKey(keys[0])
    ensures o.Failure? ==> o.status == Forbidden
  {
    if |keys| != 1 then Failure(Forbidden)
    else
      IsValidIff(keys[0]);
      if !IsValid(keys[0]) then Failure(Forbidden)
      else Success(ApiKey(keys[0]))
  }

  datatype Origin = Origin(id: u64, name: string, visibility: string)

  /** What `create` answers: the origin created, or the error for a name already taken. */
  datatype CreateReply = Created(origin: Origin) | AlreadyExists(status: string, reason: string)

  /** The answer to a request that needs the guard. */
  datatype Guarded<T> = Refused(status: Status) | Handled(reply: T)

  /** The map behind the origin routes. */
  class OriginDb {
    var origins: map<string, Origin>

    constructor ()
      ensures origins == map[]
    {
      origins := map[];
    }

    /** `show`: the stored origin, if any. */
    function Show(name: string): (r: Option<Origin>)
      reads this
      ensures r.Some? <==> name in origins
      ensures r.Some? ==> r.value == origins[name]
    {
      if name in origins then Wrappers.Some(origins[name]) else Wrappers.None
    }

    /**
     * `create`: a new name gets a public origin with the given id; a name
     * already taken is answered with an error and the map is left alone.
     */
    method Create(name: string, id: u64, key: ApiKey) returns (r: CreateReply)
      modifies this
      ensures old(name in origins) ==> r == AlreadyExists("error", "ID exists. Try put.") && origins == old(origins)
      ensures old(name !in origins) ==> r == Created(Origin(id, name, "public")) && origins == old(origins)[name := r.origin]
    {
      var origin := Origin(id, name, "public");
      if name in origins {
        return AlreadyExists("error", "ID exists. Try put.");
      }
      origins := origins[name := origin];
      r := Created(origin);
    }

    /**
     * `update`: an existing origin gets the new visibility, and the
     * updated origin is answered; a missing name is answered with None.
     */
    method Update(name: string, visibility: string, key: ApiKey) returns (r: Option<Origin>)
      modifies this
      ensures old(name in origins) ==> (r == Wrappers.Some(old(origins)[name].(visibility := visibility)) &&
        origins == old(origins)[name := r.value])
      ensures old(name !in origins) ==> r.None? && origins == old(origins)
    {
      if name !in origins {
        return Wrappers.None;
      }
      var o := origins[name].(visibility := visibility);
      origins := origins[name := o];
      r := Wrappers.Some(o);
    }

    /** A request to `create`, guard first: without the credential nothing is created. */
    method CreateRequest(keys: seq<string>, name: string, id: u64) returns (r: Guarded<CreateReply>)
      modifies this
      ensures FromRequest(keys).Failure? ==> r == Refused(Forbidden) && origins == old(origins)
      ensures FromRequest(keys).Success? ==> (r.Handled? &&
        (old(name in origins) ==> origins == old(origins)) &&
        (old(name !in origins) ==> origins == old(origins)[name := Origin(id, name, "public")]))
      ensures FromRequest(keys).Success? ==>
                r == Handled(if old(name in origins) then AlreadyExists("error", "ID exists. Try put.")
                             else Created(Origin(id, name, "public")))
    {
      var guard := FromRequest(keys);
      if guard.Failure? {
        return Refused(guard.status);
      }
      var reply := Create(name, id, guard.apiKey);
      r := Handled(reply);
    }

    /** A request to `update`, guard first. */
    method UpdateRequest(keys: seq<string>, name: string, visibility: string) returns (r: Guarded<Option<Origin>>)
      modifies this
      ensures FromRequest(keys).Failure? ==> r == Refused(Forbidden) && origins == old(origins)
      ensures FromRequest(keys).Success? && old(name !in origins) ==> r == Handled(Wrappers.None) && origins == old(origins)
      ensures FromRequest(keys).Success? && old(name in origins) ==>
        origins == old(origins)[name := old(origins)[name].(visibility := visibility)]
      ensures FromRequest(keys).Success? && old(name in origins) ==>
                r == Handled(Wrappers.Some(old(origins)[name].(visibility := visibility)))
    {
      var guard := FromRequest(keys);
      if guard.Failure? {
        return Refused(guard.status);
      }
      var reply := Update(name, visibility, guard.apiKey);
      r := Handled(reply);
    }
  }

  /** Creating and then showing an origin under a fresh name shows what was created; a second create is refused. */
  method CreateThenShow(db: OriginDb, name: string, id: u64, other: u64) returns (shown: Option<Origin>, again: CreateReply)
    requires name !in db.origins
    modifies db
    ensures shown == Wrappers.Some(Origin(id, name, "public"))
    ensures again.AlreadyExists?
    ensures db.origins == old(db.origins)[name := Origin(id, name, "public")]
  {
    var _ := db.Create(name, id, ApiKey("Bearer bobo"));
    shown := db.Show(name);
    again := db.Create(name, other, ApiKey("Bearer bobo"));
  }

  /** The guard's own example: a create without an Authorization header is Forbidden. */
  lemma CreateRequiresAuth()
    ensures FromRequest([]) == Failure(Forbidden)
    ensures FromRequest(["Bearer bobo"]).Success?
    ensures FromRequest(["Bearer other"]).Failure?
    ensures FromRequest(["Bearer bobo", "Bearer bobo"]).Failure?
  {
  }
}
