/**
 Retiring a listening socket by name while others may replace what the name stands for.
 Between any two system calls the public name may come to hold anything, whether by other
 services or by other retirements; the custody name of a retirement is its own.
 */
module SocketRetirement {
  import opened Bytes

  /** A directory entry: the identity of its inode, and whether it is a socket. */
  datatype Entry = Entry(identity: nat, socket: bool)

  datatype Outcome = Retired | Kept | Failed

  class SocketDirectory {
    var name: Option<Entry>
    var custody: map<string, Entry>
    /** Every entry unlinked so far. */
    ghost var unlinked: seq<Entry>

    constructor (name: Option<Entry>, custody: map<string, Entry>)
      ensures this.name == name && this.custody == custody && unlinked == []
    {
      this.name, this.custody, this.unlinked := name, custody, [];
    }

    /** Where an entry can still be found. */
    ghost predicate Present(e: Entry)
      reads this
    {
      name == Some(e) || exists held :: held in custody && custody[held] == e
    }

    /** What others make of the public name. */
    method Interfere(value: Option<Entry>)
      modifies `name
      ensures name == value
    {
      name := value;
    }

    /** The create-only rename of the public name into custody. */
    method MoveToCustody(held: string) returns (outcome: Outcome)
      modifies `name, `custody
      ensures outcome == if old(name).None? then Kept else if held in old(custody) then Failed else Retired
      ensures outcome == Retired ==> name == None && custody == old(custody)[held := old(name).value]
      ensures outcome != Retired ==> name == old(name) && custody == old(custody)
    {
      if name.None? { return Kept; }
      if held in custody { return Failed; }
      custody, name := custody[held := name.value], None;
      return Retired;
    }

    method UnlinkHeld(held: string)
      requires held in custody
      modifies `custody, `unlinked
      ensures custody == old(custody) - {held} && unlinked == old(unlinked) + [old(custody)[held]]
    {
      unlinked := unlinked + [custody[held]];
      custody := custody - {held};
    }

    /** The create-only rename back; it fails when the name was taken again. */
    method MoveBack(held: string)
      requires held in custody
      modifies `name, `custody
      ensures if old(name).None? then name == Some(old(custody)[held]) && custody == old(custody) - {held}
              else name == old(name) && custody == old(custody)
    {
      if name.None? {
        name, custody := Some(custody[held]), custody - {held};
      }
    }

    /**
     `_retire_socket`, given what others make of the name before each of its system calls.
     Only the expected socket is ever unlinked, and success is reported exactly then. Any other
     entry it moved is back at the name or still in custody, what others put at the name stays,
     and nothing held in custody before is lost.
     */
    method Retire(expected: nat, held: string, first: Option<Entry>, second: Option<Entry>, third: Option<Entry>)
      returns (outcome: Outcome)
      modifies this
      ensures unlinked == old(unlinked) + (if outcome == Retired then [Entry(expected, true)] else [])
      ensures outcome == Retired <==> first == Some(Entry(expected, true)) && held !in old(custody)
      ensures outcome == Failed <==> first.Some? && held in old(custody)
      ensures forall e :: first == Some(e) && outcome != Retired ==> Present(e)
      ensures forall k :: k in old(custody) ==> k in custody && custody[k] == old(custody)[k]
      ensures name == match outcome
                      case Retired => second
                      case Failed => first
                      case Kept => if first.None? || third.None? then first else third
    {
      Interfere(first);
      outcome := MoveToCustody(held);
      if outcome != Retired { return; }
      Interfere(second);
      var info := custody[held];
      if info.socket && info.identity == expected {
        UnlinkHeld(held);
        return Retired;
      }
      Interfere(third);
      MoveBack(held);
      assert third.Some? ==> held in custody && custody[held] == info;
      return Kept;
    }
  }
}
