/** `TSharedPtr` as an object: what each operation does to its pointer, to the counts of the objects it
    lets go and takes, and which of them it destroys. */
module SharedPtr {

  /** An object with its control block; `destructions` counts the runs of its destructor. */
  class SharedObject {
    var referenceCount: nat
    var destructions: nat

    /** `MakeShared`. */
    constructor ()
      ensures referenceCount == 1 && destructions == 0
    {
      referenceCount, destructions := 1, 0;
    }

    method AddReference()
      modifies this`referenceCount
      ensures referenceCount == old(referenceCount) + 1
    {
      referenceCount := referenceCount + 1;
    }

    method ReleaseReference() returns (last: bool)
      requires referenceCount > 0
      modifies this`referenceCount
      ensures referenceCount == old(referenceCount) - 1 && (last <==> referenceCount == 0)
    {
      referenceCount := referenceCount - 1;
      last := referenceCount == 0;
    }

    /** `SharedMemoryDeallocator::Deallocate`, which `Static_Reset` calls. */
    method Deallocate()
      requires referenceCount > 0
      modifies this
      ensures referenceCount == old(referenceCount) - 1
      ensures destructions == old(destructions) + (if referenceCount == 0 then 1 else 0)
    {
      var last := ReleaseReference();
      if last {
        destructions := destructions + 1;
      }
    }
  }

  /** How many of two pointers refer to `o`. */
  function Uses(o: SharedObject, p: SharedObject?, q: SharedObject?): nat {
    (if p == o then 1 else 0) + (if q == o then 1 else 0)
  }

  /** The references to `o` that others than these two pointers answer for. */
  function Spare(o: SharedObject, p: SharedObject?, q: SharedObject?): int
    reads o
  {
    o.referenceCount - Uses(o, p, q)
  }

  /** An object whose count has reached zero was destroyed once more than before. */
  twostate predicate DestroyedIfZero(o: SharedObject)
    reads o
  {
    o.destructions == old(o.destructions) + (if o.referenceCount == 0 then 1 else 0)
  }

  function Objects(p: SharedObject?, q: SharedObject?): set<SharedObject> {
    (if p != null then {p} else {}) + (if q != null then {q} else {})
  }

  class TSharedPtr {
    var pointer: SharedObject?

    /** An owning raw pointer, or null. */
    constructor (p: SharedObject?)
      ensures pointer == p
    {
      pointer := p;
    }

    constructor Copy(other: TSharedPtr)
      modifies Objects(other.pointer, null)
      ensures pointer == other.pointer == old(other.pointer)
      ensures pointer != null ==> Spare(pointer, pointer, other.pointer) == old(Spare(other.pointer, null, other.pointer))
                                  && pointer.destructions == old(other.pointer.destructions)
    {
      pointer := other.pointer;
      new;
      if pointer != null {
        pointer.AddReference();
      }
    }

    constructor Move(other: TSharedPtr)
      modifies other
      ensures pointer == old(other.pointer) && other.pointer == null
      ensures forall o: SharedObject :: old(allocated(o)) ==>
                Spare(o, pointer, other.pointer) == old(Spare(o, null, other.pointer)) && o.destructions == old(o.destructions)
    {
      pointer := other.pointer;
      new;
      other.pointer := null;
    }

    /** `reset`, and the destructor. */
    method Reset()
      requires pointer != null ==> pointer.referenceCount > 0
      modifies this, Objects(pointer, null)
      ensures pointer == null
      ensures var p := old(pointer); p != null ==> Spare(p, pointer, null) == old(Spare(p, pointer, null)) && DestroyedIfZero(p)
    {
      if pointer != null {
        pointer.Deallocate();
        pointer := null;
      }
    }

    /** Both pointers are counted: an object has at least one reference for each of them. */
    ghost predicate BothCounted(other: TSharedPtr)
      reads this, other, Objects(pointer, other.pointer)
    {
      this != other && forall o :: o in Objects(pointer, other.pointer) ==> o.referenceCount >= Uses(o, pointer, other.pointer)
    }

    /** The copy assignment: every count changes by as much as the number of the two pointers that use
        the object, so an object is destroyed only if this was the last reference to it and the
        other pointer does not use it. */
    method Assign(other: TSharedPtr)
      requires BothCounted(other)
      modifies this, Objects(pointer, other.pointer)
      ensures pointer == other.pointer == old(other.pointer) && BothCounted(other)
      ensures forall o :: o in old(Objects(pointer, other.pointer)) ==>
                Spare(o, pointer, other.pointer) == old(Spare(o, pointer, other.pointer)) && DestroyedIfZero(o)
    {
      Reset();
      pointer := other.pointer;
      if pointer != null {
        pointer.AddReference();
      }
    }

    /** The move assignment. */
    method AssignMove(other: TSharedPtr)
      requires BothCounted(other)
      modifies this, other, Objects(pointer, other.pointer)
      ensures pointer == old(other.pointer) && other.pointer == null && BothCounted(other)
      ensures forall o :: o in old(Objects(pointer, other.pointer)) ==>
                Spare(o, pointer, other.pointer) == old(Spare(o, pointer, other.pointer)) && DestroyedIfZero(o)
    {
      Reset();
      pointer := other.pointer;
      other.pointer := null;
    }

    method NewRefRaw() returns (p: SharedObject?)
      modifies Objects(pointer, null)
      ensures p == pointer
      ensures p != null ==> Spare(p, pointer, p) == old(Spare(pointer, pointer, null)) && p.destructions == old(pointer.destructions)
    {
      if pointer != null {
        pointer.AddReference();
      }
      p := pointer;
    }

    method ReleaseRawRef() returns (p: SharedObject?)
      modifies this
      ensures p == old(pointer) && pointer == null
      ensures forall o: SharedObject :: old(allocated(o)) ==> Spare(o, pointer, p) == old(Spare(o, pointer, null)) && o.destructions == old(o.destructions)
    {
      p := pointer;
      pointer := null;
    }
  }
}
