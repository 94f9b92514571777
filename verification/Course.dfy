/**
 What the relay, a session with its timer and the ledger have in common: when the admin's handlers start
 and end, and for which request of whom.
 */
module Course {

  /** `number` is the place of the request among those of its user. */
  datatype Event =
    | Started(user: int, number: nat, exit: bool)
    | Ended(user: int)
    | Restarted

  /** The users with a handler that has started and not ended. */
  function Running(es: seq<Event>): set<int> {
    if es == [] then {}
    else RunningAfter(Running(es[..|es| - 1]), es[|es| - 1])
  }

  function RunningAfter(before: set<int>, e: Event): set<int> {
    match e
    case Started(u, _, _) => before + {u}
    case Ended(u) => before - {u}
    case Restarted => {}
  }

  /** The users whose EXIT has been given to a handler. */
  function Exited(es: seq<Event>): set<int> {
    if es == [] then {}
    else
      var before, e := Exited(es[..|es| - 1]), es[|es| - 1];
      if e.Started? && e.exit then before + {e.user} else before
  }

  /** The request `number` comes after those of the user that have been given to handlers. */
  predicate Follows(es: seq<Event>, user: int, number: nat) {
    forall i :: 0 <= i < |es| && es[i].Started? && es[i].user == user ==> es[i].number < number
  }

  /** A handler may start when its user has none, has had none for an EXIT, and none for a later request. */
  predicate MayStart(es: seq<Event>, e: Event) {
    e.Started? ==> e.user !in Running(es) && e.user !in Exited(es) && Follows(es, e.user, e.number)
  }

  /** Every handler starts when it may. */
  predicate InTurn(es: seq<Event>) {
    es == [] || (InTurn(es[..|es| - 1]) && MayStart(es[..|es| - 1], es[|es| - 1]))
  }

  lemma Snoc(es: seq<Event>, e: Event)
    ensures Running(es + [e]) == RunningAfter(Running(es), e)
    ensures Exited(es + [e]) == if e.Started? && e.exit then Exited(es) + {e.user} else Exited(es)
    ensures InTurn(es + [e]) <==> InTurn(es) && MayStart(es, e)
  {
    assert (es + [e])[..|es|] == es;
  }

  lemma FollowsSnoc(es: seq<Event>, e: Event, user: int, number: nat)
    ensures Follows(es + [e], user, number) <==>
              Follows(es, user, number) && (e.Started? && e.user == user ==> e.number < number)
  {
    var es' := es + [e];
    assert es'[|es|] == e;
    assert forall i :: 0 <= i < |es| ==> es'[i] == es[i];
  }

  // ----- user by user -----

  predicate Concerns(e: Event, user: int) {
    e.Restarted? || (e.Started? && e.user == user) || (e.Ended? && e.user == user)
  }

  /** The events of one user, and the restarts. */
  function Only(es: seq<Event>, user: int): seq<Event> {
    if es == [] then []
    else
      var before, e := Only(es[..|es| - 1], user), es[|es| - 1];
      if Concerns(e, user) then before + [e] else before
  }

  lemma {:induction false} OnlyTallies(es: seq<Event>, user: int)
    ensures user in Running(Only(es, user)) <==> user in Running(es)
    ensures user in Exited(Only(es, user)) <==> user in Exited(es)
    ensures forall n: nat :: Follows(Only(es, user), user, n) <==> Follows(es, user, n)
  {
    if es != [] {
      var before, e := es[..|es| - 1], es[|es| - 1];
      OnlyTallies(before, user);
      assert es == before + [e];
      if Concerns(e, user) {
        Snoc(Only(before, user), e);
        forall n: nat ensures Follows(Only(es, user), user, n) <==> Follows(es, user, n) {
          FollowsSnoc(before, e, user, n);
          FollowsSnoc(Only(before, user), e, user, n);
        }
      } else {
        forall n: nat ensures Follows(Only(es, user), user, n) <==> Follows(es, user, n) {
          FollowsSnoc(before, e, user, n);
        }
      }
    }
  }

  predicate InTurnFor(es: seq<Event>, user: int) {
    InTurn(Only(es, user))
  }

  lemma InTurnForSnoc(before: seq<Event>, e: Event, user: int)
    ensures InTurnFor(before + [e], user) <==>
              InTurnFor(before, user) && (Concerns(e, user) ==> MayStart(before, e))
  {
    assert (before + [e])[..|before|] == before;
    OnlyTallies(before, user);
    Snoc(Only(before, user), e);
  }

  /** Handlers are in turn exactly if each user's are: what others do is of no account. */
  lemma {:induction false} InTurnIffEach(es: seq<Event>)
    ensures InTurn(es) <==> forall user :: InTurnFor(es, user)
  {
    if es != [] {
      var before, e := es[..|es| - 1], es[|es| - 1];
      assert es == before + [e];
      InTurnIffEach(before);
      Snoc(before, e);
      hide InTurn, InTurnFor, MayStart;
      forall user ensures InTurnFor(es, user) <==>
                            InTurnFor(before, user) && (Concerns(e, user) ==> MayStart(before, e))
      {
        InTurnForSnoc(before, e, user);
      }
      StartsConcern(before, e);
    }
  }

  lemma StartsConcern(before: seq<Event>, e: Event)
    ensures MayStart(before, e) || (e.Started? && Concerns(e, e.user))
  {
  }
}
