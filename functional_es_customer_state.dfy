/**
 * src/domain/functional/es/customer/CustomerState.java: the mutable state
 * object that the functional event-sourced handlers rebuild from a history.
 * Its fields start out null (the flag is a boxed `Boolean`) and only its
 * `apply` assigns them.
 */
module FunctionalEsCustomerState {
  import opened Wrappers
  import opened Values
  import opened Events
  import Projection

  class CustomerState {
    var id: Option<ID>
    var emailAddress: Option<EmailAddress>
    var confirmationHash: Option<Hash>
    var name: Option<PersonName>
    var isConfirmed: Option<bool>

    /** The object's fields as a value. */
    function Snapshot(): Projection.State
      reads this
    {
      Projection.State(id, emailAddress, confirmationHash, name, isConfirmed)
    }

    /** The private no-argument constructor: every field null. */
    constructor ()
      ensures Snapshot() == Projection.Unset
    {
      id, emailAddress, confirmationHash, name, isConfirmed := None, None, None, None, None;
    }

    /** A new state object with the whole history applied, in order. */
    static method Reconstitute(events: seq<Event>) returns (customer: CustomerState)
      ensures fresh(customer)
      ensures customer.Snapshot() == Projection.Fold(events)
    {
      customer := new CustomerState();
      customer.Forward(events);
    }

    /** Applies further events, in order, to this object. */
    method Forward(events: seq<Event>)
      modifies this
      ensures Snapshot() == Projection.FoldFrom(old(Snapshot()), events)
    {
      ghost var start := Snapshot();
      for i := 0 to |events|
        invariant Projection.FoldFrom(start, events[..i]) == Snapshot()
      {
        Apply(events[i]);
        assert events[..i + 1] == events[..i] + [events[i]];
        Projection.FoldSnoc(start, events[..i], events[i]);
      }
      assert events[..|events|] == events;
    }

    /** Assigns the fields the event carries; an event of any other kind changes nothing. */
    method Apply(e: Event)
      modifies this
      ensures Snapshot() == Projection.Apply(old(Snapshot()), e)
    {
      match e {
        case CustomerRegistered(_, email, hash, n) =>
          emailAddress := Some(email);
          confirmationHash := Some(hash);
          name := Some(n);
        case CustomerEmailAddressConfirmed(_) =>
          isConfirmed := Some(true);
        case CustomerEmailAddressChanged(_, email, hash) =>
          emailAddress := Some(email);
          confirmationHash := Some(hash);
          isConfirmed := Some(false);
        case CustomerNameChanged(_, n) =>
          name := Some(n);
        case CustomerEmailAddressConfirmationFailed(_) =>
      }
    }
  }

  /** Reconstituting from `a` and then forwarding `b` gives the projection of `a ++ b`. */
  method ReconstituteThenForward(a: seq<Event>, b: seq<Event>) returns (s: Projection.State)
    ensures s == Projection.Fold(a + b)
    ensures s.id == None
  {
    var customer := CustomerState.Reconstitute(a);
    customer.Forward(b);
    s := customer.Snapshot();
    Projection.FoldSplit(a, b);
  }
}
