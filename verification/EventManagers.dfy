/** Events by handle and by name (myframe/event_manager.cpp). */
module EventManagers {
  import opened Basics

  class EventManager {
    // The name of the event behind each handle, and the handle each name stands for.
    var evs: map<nat, string>
    var names: map<string, nat>

    /** A name stands for an event that has it; an event need not be the one its name stands for. */
    ghost predicate Valid()
      reads this
    {
      forall n :: n in names ==> names[n] in evs && evs[names[n]] == n
    }

    constructor ()
      ensures Valid() && evs == map[] && names == map[]
    {
      evs, names := map[], map[];
    }

    /** Only the handle is compared: an event of a name that is taken already takes it over. */
    method Add(handle: nat, name: string) returns (ok: bool)
      requires Valid()
      modifies this
      ensures Valid() && ok == (handle !in old(evs))
      ensures evs == if ok then old(evs)[handle := name] else old(evs)
      ensures names == if ok then old(names)[name := handle] else old(names)
    {
      if handle in evs {
        return false;
      }
      evs := evs[handle := name];
      names := names[name := handle];
      return true;
    }

    method ToHandle(name: string) returns (handle: Option<nat>)
      ensures handle == if name in names then Some(names[name]) else None
    {
      if name !in names {
        return None;
      }
      return Some(names[name]);
    }

    /** The name goes too, even if it stands for another event by now. */
    method Del(handle: nat) returns (ok: bool)
      requires Valid()
      modifies this
      ensures Valid() && ok == (handle in old(evs))
      ensures evs == old(evs) - {handle}
      ensures names == if ok then old(names) - {old(evs)[handle]} else old(names)
    {
      if handle !in evs {
        return false;
      }
      names := names - {evs[handle]};
      evs := evs - {handle};
      return true;
    }
  }
}
