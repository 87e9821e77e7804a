/**
 * `Provider<T>` of provider/src/lib.rs: a store of devices of one category,
 * addressed by `u8` handles handed out by a counter that only goes up.
 */
module Provider {
  import opened Wrappers
  import opened DeviceInfo

  /**
   * `add` stores under the counter and then does `common_counter += 1` on a
   * `u8`: at 255 that overflows, so the counter must be below this bound.
   */
  const MaxCounter: U8 := 255

  class Provider<T> {
    var counter: U8
    const name: string
    var store: map<U8, T>

    /** Every stored handle was handed out before, so the counter never hands it out again. */
    ghost predicate Valid()
      reads this
    {
      forall h :: h in store ==> h < counter
    }

    constructor (name: string)
      ensures Valid()
      ensures counter == 0 && store == map[] && GetName() == name
    {
      counter := 0;
      this.name := name;
      store := map[];
    }

    /** The name given at construction; `name` is a `const`, so no operation changes it. */
    function GetName(): (r: string)
      ensures r == name
    {
      name
    }

    /**
     * Stores the item under the current counter value, which it returns,
     * and moves the counter on by one. The handle is fresh, and every other
     * entry stays as it was.
     */
    method Add(item: T) returns (id: U8)
      requires Valid() && counter < MaxCounter
      modifies this
      ensures Valid()
      ensures id == old(counter) && id !in old(store)
      ensures store == old(store)[id := item]
      ensures counter == old(counter) + 1
    {
      id := counter;
      store := store[id := item];
      counter := counter + 1;
    }

    /** The item stored under `id`, if any. */
    function Get(id: U8): (r: Option<T>)
      reads this
      ensures r.Some? <==> id in store
      ensures r.Some? ==> r.value == store[id]
    {
      if id in store then Some(store[id]) else None
    }

    /** Drops the entry for `id` if there is one; the counter stays, so the handle is not handed out again. */
    method Remove(id: U8)
      requires Valid()
      modifies this
      ensures Valid()
      ensures store == old(store) - {id} && counter == old(counter)
    {
      store := store - {id};
    }

    /**
     * `add` as it behaves once the counter reaches 255 in a build that does
     * not trap overflow: the counter wraps around to 0.
     */
    method AddWrapping(item: T) returns (id: U8)
      modifies this
      ensures id == old(counter)
      ensures store == old(store)[id := item]
      ensures counter == (old(counter) + 1) % 256
    {
      id := counter;
      store := store[id := item];
      counter := (counter + 1) % 256;
    }
  }

  /**
   * The unit tests of provider/src/lib.rs: a new provider keeps its name,
   * its first handle is 0, `get` of that handle yields the item, and after
   * `remove` it yields nothing.
   */
  method AddGetRemove<T>(item: T) returns (name: string, first: U8, got: Option<T>, gone: Option<T>)
    ensures name == "test" && first == 0 && got == Some(item) && gone == None
  {
    var source := new Provider<T>("test");
    first := source.Add(item);
    got := source.Get(first);
    source.Remove(first);
    gone := source.Get(first);
    name := source.GetName();
  }

  /**
   * A removed handle is never handed out again: after removing a handle
   * that `add` gave out earlier, `get` of it yields nothing and the next
   * `add` returns a different handle. The counter ends above the removed
   * handle, so no later `add` returns it either.
   */
  method RemoveThenAdd<T>(p: Provider<T>, id: U8, item: T) returns (next: U8)
    requires p.Valid() && id < p.counter < MaxCounter
    modifies p
    ensures p.Valid()
    ensures next != id && p.Get(id) == None
    ensures p.counter == old(p.counter) + 1 && id < p.counter
  {
    p.Remove(id);
    next := p.Add(item);
  }

  /** On any provider with handles left, `get` of the handle `add` just returned yields the added item. */
  method AddThenGet<T>(p: Provider<T>, item: T) returns (id: U8)
    requires p.Valid() && p.counter < MaxCounter
    modifies p
    ensures p.Valid()
    ensures p.Get(id) == Some(item)
  {
    id := p.Add(item);
  }

  /**
   * With a wrapping counter, handles are reused: after 256 additions the
   * handle of the first comes round again and its item is overwritten.
   */
  method WrappedCounterReusesHandle<T>(a: T, b: T) returns (first: U8, reused: U8, stored: Option<T>)
    ensures first == 0 && reused == first && stored == Some(b)
  {
    var p := new Provider<T>("wrap");
    first := p.AddWrapping(a);
    var i := 1;
    while i < 256
      invariant 1 <= i <= 256
      invariant p.counter == i % 256
    {
      var _ := p.AddWrapping(a);
      i := i + 1;
    }
    reused := p.AddWrapping(b);
    stored := p.Get(first);
  }
}
