// The Redis cache of idempotency keys, one atomic command per method.
module Idempotency {
  import opened Wrappers
  import opened Money
  import opened Ledger
  import opened Transactions
  import opened Errors

  /** A response as it is cached for repeated requests. */
  datatype Body =
    | TransferBody(receipt: Receipt)
    | TopupBody(entry: Id, number: string, amount: Sen)
    | WithdrawBody(entry: Id, amount: Sen)

  /** The values the services store: "in_flight", "completed", or the text of a cached response. */
  datatype Value = InFlightMark | CompletedMark | Data(body: Body)

  datatype Decision = Proceed | Duplicate | InFlight

  /** Cached data under a key counts as no prior request. */
  function Check(status: Option<Value>): Decision {
    match status
    case None => Proceed
    case Some(CompletedMark) => Duplicate
    case Some(InFlightMark) => InFlight
    case Some(Data(_)) => Proceed
  }

  const CachedSuffix := ":cached"
  const WithdrawCachedSuffix := ":wd:cached"

  type Store = map<string, Value>

  function Lookup(store: Store, key: string): Option<Value> {
    if key in store then Some(store[key]) else None
  }

  /** The two deletes that follow a failed transfer; each may be lost when Redis does not answer. */
  function ClearKeys(store: Store, key: string, markerLost: bool, dataLost: bool): Store {
    var s := if markerLost then store else store - {key};
    if dataLost then s else s - {key + CachedSuffix}
  }

  /** The two writes that follow a success. */
  function CacheKeys(store: Store, key: string, suffix: string, body: Body, markerLost: bool, dataLost: bool): Store {
    var s := if markerLost then store else store[key := CompletedMark];
    if dataLost then s else s[key + suffix := Data(body)]
  }

  /** The Redis commands of one request. */
  datatype RedisCall =
    | GetStatus | AcquireMarker | GetData
    | CompensateMarker | CompensateData | ClearMarker | ClearData
    | SetStatus | SetData

  /** A command is answered; or it takes effect but its answer is lost; or it never arrives. */
  datatype Delivery = Answered | Unanswered | Dropped

  type Net = RedisCall -> Delivery

  predicate Fails(net: Net, c: RedisCall) {
    net(c) != Answered
  }

  predicate Drops(net: Net, c: RedisCall) {
    net(c) == Dropped
  }

  datatype Reply = Fresh(body: Body) | Cached(body: Body) | Refused(code: Code)

  function CachedReply(store: Store, key: string, suffix: string, lost: bool): Reply {
    if lost then Refused(Internal)
    else
      match Lookup(store, key + suffix)
      case Some(Data(body)) => Cached(body)
      case _ => Refused(Internal)
  }

  /** The reply to a request that does not get the marker; None when it does. */
  function Admit(store: Store, key: string, suffix: string, net: Net): Option<Reply> {
    if Fails(net, GetStatus) then Some(Refused(Internal))
    else
      match Check(Lookup(store, key))
      case Duplicate => Some(CachedReply(store, key, suffix, Fails(net, GetData)))
      case InFlight => Some(Refused(RequestInFlight))
      case Proceed =>
        if Fails(net, AcquireMarker) then Some(Refused(Internal))
        else if key in store then Some(Refused(RequestInFlight))
        else None
  }

  /** The cache after the idempotency check: a SETNX whose answer is lost may leave a marker that nobody owns. */
  function StoreAcquired(store: Store, key: string, net: Net): Store {
    if Fails(net, GetStatus) || Check(Lookup(store, key)) != Proceed || key in store || Drops(net, AcquireMarker)
    then store
    else store[key := InFlightMark]
  }

  /** Seconds that markers and cached results live. */
  const InFlightTTL := 30
  const DefaultIdempotencyTTL := 24 * 3600

  class RedisCache {
    var store: Store
    var ttl: map<string, nat>

    constructor ()
      ensures store == map[] && ttl == map[]
    {
      store, ttl := map[], map[];
    }

    /** ttl records the lifetime that each key was last given. */
    method SetIfNotExist(key: string, value: Value, seconds: nat, d: Delivery) returns (acquired: Option<bool>)
      modifies this
      ensures acquired == if d != Answered then None else Some(key !in old(store))
      ensures store == if key !in old(store) && d != Dropped then old(store)[key := value] else old(store)
      ensures ttl == if key !in old(store) && d != Dropped then old(ttl)[key := seconds] else old(ttl)
    {
      if d == Dropped {
        return None;
      }
      var free := key !in store;
      if free {
        store, ttl := store[key := value], ttl[key := seconds];
      }
      return if d == Answered then Some(free) else None;
    }

    method Get(key: string, d: Delivery) returns (value: Option<Option<Value>>)
      ensures value == if d != Answered then None else Some(Lookup(store, key))
    {
      if d != Answered {
        return None;
      }
      return Some(Lookup(store, key));
    }

    /** Overwrites value and lifetime; the caller goes on whether or not an answer arrives. */
    method Set(key: string, value: Value, seconds: nat, d: Delivery)
      modifies this
      ensures store == if d == Dropped then old(store) else old(store)[key := value]
      ensures ttl == if d == Dropped then old(ttl) else old(ttl)[key := seconds]
    {
      if d != Dropped {
        store, ttl := store[key := value], ttl[key := seconds];
      }
    }

    method Delete(key: string, d: Delivery)
      modifies this
      ensures store == if d == Dropped then old(store) else old(store) - {key}
      ensures ttl == if d == Dropped then old(ttl) else old(ttl) - {key}
    {
      if d != Dropped {
        store, ttl := store - {key}, ttl - {key};
      }
    }

    /** The first steps of every request: the idempotency check, and the marker when nobody has it. */
    method Acquire(key: string, suffix: string, net: Net) returns (refusal: Option<Reply>)
      modifies this
      ensures refusal == Admit(old(store), key, suffix, net)
      ensures store == StoreAcquired(old(store), key, net)
      ensures refusal == None ==> store == old(store)[key := InFlightMark] && ttl == old(ttl)[key := 30]
    {
      var status := Get(key, net(GetStatus));
      if status == None {
        return Some(Refused(Internal));
      }
      match Check(status.value) {
        case Duplicate =>
          var data := Get(key + suffix, net(GetData));
          match data {
            case Some(Some(Data(body))) => return Some(Cached(body));
            case _ => return Some(Refused(Internal));
          }
        case InFlight =>
          return Some(Refused(RequestInFlight));
        case Proceed =>
          var acquired := SetIfNotExist(key, InFlightMark, InFlightTTL, net(AcquireMarker));
          if acquired == None {
            return Some(Refused(Internal));
          }
          return if acquired.value then None else Some(Refused(RequestInFlight));
      }
    }

    method CacheResult(key: string, suffix: string, body: Body, net: Net)
      modifies this
      ensures store == CacheKeys(old(store), key, suffix, body, Drops(net, SetStatus), Drops(net, SetData))
      ensures net(SetStatus) == Answered && net(SetData) == Answered ==>
                ttl == old(ttl)[key := 86_400][key + suffix := 86_400]
    {
      Set(key, CompletedMark, DefaultIdempotencyTTL, net(SetStatus));
      Set(key + suffix, Data(body), DefaultIdempotencyTTL, net(SetData));
    }
  }
}
