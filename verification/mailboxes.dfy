/** Optional values, shared by every module. */
module Base {
  datatype Option<T> = None | Some(value: T)
}

/** The ordered list store the scheduler keeps its named-task payloads in
    (Redis lists): a map from list name to the list, where a missing name is
    the empty list and popping the last element removes the name. */
module Mailboxes {
  import opened Base

  type Store = map<string, seq<string>>

  /** The list held under `name`; a name never pushed to holds the empty list. */
  function ListOf(m: Store, name: string): seq<string> {
    if name in m then m[name] else []
  }

  /** Every name other than `name` holds the same list in `m` and `m'`. */
  ghost predicate OthersUnchanged(m: Store, m': Store, name: string) {
    forall k :: k != name ==> ListOf(m', k) == ListOf(m, k)
  }

  /** RPUSH: append `item` at the tail of list `name`. */
  function RPush(m: Store, name: string, item: string): (m': Store)
    ensures ListOf(m', name) == ListOf(m, name) + [item]
    ensures OthersUnchanged(m, m', name)
  {
    m[name := ListOf(m, name) + [item]]
  }

  /** What a pop hands back: the element taken, if any, and the store after. */
  datatype Popped = Popped(item: Option<string>, store: Store)

  /** Remove list `name` when it became empty, as Redis does. */
  function Put(m: Store, name: string, list: seq<string>): (m': Store)
    ensures ListOf(m', name) == list
    ensures OthersUnchanged(m, m', name)
  {
    if list == [] then m - {name} else m[name := list]
  }

  /** LPOP: take the head of list `name`; an empty list yields nothing and
      leaves the store as it was. */
  function LPop(m: Store, name: string): (p: Popped)
    ensures ListOf(m, name) == [] ==> p == Popped(None, m)
    ensures ListOf(m, name) != [] ==>
      && p.item == Some(ListOf(m, name)[0])
      && [p.item.value] + ListOf(p.store, name) == ListOf(m, name)
    ensures OthersUnchanged(m, p.store, name)
  {
    var list := ListOf(m, name);
    if list == [] then Popped(None, m) else Popped(Some(list[0]), Put(m, name, list[1..]))
  }

  /** RPOP: take the tail of list `name`; an empty list yields nothing. */
  function RPop(m: Store, name: string): (p: Popped)
    ensures ListOf(m, name) == [] ==> p == Popped(None, m)
    ensures ListOf(m, name) != [] ==>
      && p.item == Some(ListOf(m, name)[|ListOf(m, name)| - 1])
      && ListOf(p.store, name) + [p.item.value] == ListOf(m, name)
    ensures OthersUnchanged(m, p.store, name)
  {
    var list := ListOf(m, name);
    if list == [] then Popped(None, m) else Popped(Some(list[|list| - 1]), Put(m, name, list[..|list| - 1]))
  }

  /** Pushing at the tail does not disturb the head: on a non-empty list,
      popping after a push yields what popping before it would, and the pushed
      item still waits at the tail. This is what makes each list FIFO. */
  lemma PushThenPopCommute(m: Store, name: string, item: string)
    requires ListOf(m, name) != []
    ensures LPop(RPush(m, name, item), name).item == LPop(m, name).item
    ensures ListOf(LPop(RPush(m, name, item), name).store, name)
         == ListOf(LPop(m, name).store, name) + [item]
  {
    var list := ListOf(m, name);
    assert (list + [item])[1..] == list[1..] + [item];
  }

  /** On an empty list, the item pushed is the item popped, and the list is
      empty again afterwards. */
  lemma PushThenPopEmpty(m: Store, name: string, item: string)
    requires ListOf(m, name) == []
    ensures LPop(RPush(m, name, item), name).item == Some(item)
    ensures ListOf(LPop(RPush(m, name, item), name).store, name) == []
  {
  }
}
