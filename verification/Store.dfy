/** The one DynamoDB table both protocols write to: items are attribute maps, writes are conditional
    on a single item, and expired items may be swept at any time. */
module Store {
  import opened Basics
  import opened Calendar
  import opened CanonicalJson

  datatype Text = Plain(chars: string) | Hash(digest: Digest)

  datatype Attribute = S(text: Text) | N(number: int) | BOOL(flag: bool)

  datatype Name = CallerFingerprint | Action | PayloadHash | ExpiresAt | IsConsumed | Count

  type Item = map<Name, Attribute>
  type Table = map<Digest, Item>

  /** What happens to one store call: it is answered, never arrives, or takes effect but its answer is lost. */
  datatype Fault = NoFault | RequestLost | ReplyLost

  datatype Reply = Done | ConditionFailed | NoAnswer

  datatype Written = Written(table: Table, reply: Reply)

  function Lookup(t: Table, key: Digest): Option<Item>
  {
    if key in t then Some(t[key]) else None
  }

  /** One atomic conditional write of `item` under `key`. */
  function ConditionalWrite(t: Table, key: Digest, allowed: bool, item: Item, fault: Fault): Written
  {
    if fault.RequestLost? then Written(t, NoAnswer)
    else
      Written(if allowed then t[key := item] else t,
              if fault.ReplyLost? then NoAnswer else if allowed then Done else ConditionFailed)
  }

  predicate Has(item: Item, name: Name, value: Attribute)
  {
    name in item && item[name] == value
  }

  /** TTL may remove an item once its expiry, in epoch seconds, has been reached. */
  predicate Sweepable(t: Table, key: Digest, now: int)
  {
    key in t && ExpiresAt in t[key] && t[key][ExpiresAt].N?
    && t[key][ExpiresAt].number * MICROS_PER_SECOND <= now
  }

  function Sweep(t: Table, key: Digest): Table
  {
    t - {key}
  }

  /** The DynamoDB client of one table. */
  class SharedTable {
    var items: Table

    constructor ()
      ensures items == map[]
    {
      items := map[];
    }

    /** `put_item` conditioned on the key being absent. */
    method PutItem(key: Digest, item: Item, fault: Fault) returns (reply: Reply)
      modifies this
      ensures Written(items, reply) == ConditionalWrite(old(items), key, key !in old(items), item, fault)
    {
      if fault.RequestLost? { return NoAnswer; }
      var allowed := key !in items;
      if allowed { items := items[key := item]; }
      reply := if fault.ReplyLost? then NoAnswer else if allowed then Done else ConditionFailed;
    }

    /** `update_item` with a condition and an update expression over the current item. */
    method UpdateItem(key: Digest, condition: Option<Item> -> bool, update: Option<Item> -> Item, fault: Fault)
      returns (reply: Reply)
      modifies this
      ensures Written(items, reply)
           == var row := Lookup(old(items), key); ConditionalWrite(old(items), key, condition(row), update(row), fault)
    {
      if fault.RequestLost? { return NoAnswer; }
      var row := Lookup(items, key);
      var allowed := condition(row);
      if allowed { items := items[key := update(row)]; }
      reply := if fault.ReplyLost? then NoAnswer else if allowed then Done else ConditionFailed;
    }

    /** `get_item` with a consistent read. */
    method GetItem(key: Digest) returns (row: Option<Item>)
      ensures row == Lookup(items, key)
    {
      row := Lookup(items, key);
    }
  }
}
