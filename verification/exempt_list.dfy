// The account's AdmissionExemptGroups, which every OZRoutingPeer edits
// (internal/controller/ozroutingpeer_controller.go:130-222).
module ExemptList {
  import opened Slices
  import opened Tables

  /** The first account, if any, and its exempt list; None stands for the null list. */
  datatype Account = NoAccount | Account(exempt: Option<seq<string>>)

  function Listed(a: Account): seq<string> {
    if a.Account? && a.exempt.Some? then a.exempt.value else []
  }

  /** Account after handleAdmissionExempt wrote it; unchanged when the flag is already honoured. */
  function Applied(a: Account, group: string, exempt: bool): Account {
    var current := Listed(a);
    if a.NoAccount? || (exempt <==> group in current) then a
    else Account(Some(if exempt then current + [group] else Drop(current, {group})))
  }

  /** One account slot and the number of update calls that reached the server. */
  class ExemptSettings {
    var account: Account
    var updates: nat

    constructor (account: Account)
      ensures this.account == account && updates == 0
    {
      this.account, updates := account, 0;
    }

    method HandleAdmissionExempt(group: Option<string>, flag: Option<bool>, listFails: bool, updateFails: bool)
      returns (err: bool)
      modifies this
      ensures var wanted := if flag.Some? then flag.value else true;
              if group == None then !err && account == old(account) && updates == old(updates)
              else if listFails then err && account == old(account) && updates == old(updates)
              else
                && (err <==> updateFails && Applied(old(account), group.value, wanted) != old(account))
                && account == (if err then old(account) else Applied(old(account), group.value, wanted))
                && updates == old(updates) + (if account != old(account) then 1 else 0)
    {
      if group == None {
        return false;
      }
      var exempt := true;
      if flag != None {
        exempt := flag.value;
      }
      if listFails {
        return true;
      }
      if account.NoAccount? {
        return false;
      }
      var current: seq<string> := [];
      if account.exempt != None {
        current := account.exempt.value;
      }
      var groupId := group.value;
      var contains := groupId in current;
      var desired: seq<string>;
      if exempt && !contains {
        desired := current + [groupId];
      } else if !exempt && contains {
        desired := Without(current, groupId);
        DropMembers(current, {groupId}, groupId);
      } else {
        return false;
      }
      if updateFails {
        return true;
      }
      account := Account(Some(desired));
      updates := updates + 1;
      return false;
    }

    method RemoveAdmissionExempt(group: string, listFails: bool, updateFails: bool) returns (err: bool)
      modifies this
      ensures if listFails then err && account == old(account) && updates == old(updates)
              else
                && (err <==> updateFails && Applied(old(account), group, false) != old(account))
                && account == (if err then old(account) else Applied(old(account), group, false))
                && updates == old(updates) + (if account != old(account) then 1 else 0)
    {
      if listFails {
        return true;
      }
      if account.NoAccount? || account.exempt == None {
        return false;
      }
      var current := account.exempt.value;
      if group !in current {
        return false;
      }
      var desired := Without(current, group);
      DropMembers(current, {group}, group);
      if updateFails {
        return true;
      }
      account := Account(Some(desired));
      updates := updates + 1;
      return false;
    }
  }

  // ----- runs -----

  /** A pass of some routing peer that reached the server: its group, and whether it is to be exempt.
      Removal on deletion is the same edit with the flag off. */
  datatype Edit = Edit(group: string, exempt: bool)

  function Run(edits: seq<Edit>, a: Account): Account {
    if edits == [] then a
    else Applied(Run(edits[..|edits| - 1], a), edits[|edits| - 1].group, edits[|edits| - 1].exempt)
  }

  ghost function Managed(edits: seq<Edit>): set<string> {
    set e | e in edits :: e.group
  }

  /** The flag last applied for a group, or its presence before the run. */
  function LastFlag(edits: seq<Edit>, a: Account, group: string): bool {
    if edits == [] then group in Listed(a)
    else if edits[|edits| - 1].group == group then edits[|edits| - 1].exempt
    else LastFlag(edits[..|edits| - 1], a, group)
  }

  lemma AppliedFacts(a: Account, group: string, exempt: bool, others: set<string>)
    requires a.Account?
    ensures var b := Applied(a, group, exempt);
            && b.Account? && (group in Listed(b) <==> exempt)
            && (forall g :: g != group ==> (g in Listed(b) <==> g in Listed(a)))
            && (group in others ==> Drop(Listed(b), others) == Drop(Listed(a), others))
            && (NoRepeats(Listed(a)) ==> NoRepeats(Listed(b)))
  {
    var current := Listed(a);
    forall g ensures g in Drop(current, {group}) <==> g in current && g !in {group} {
      DropMembers(current, {group}, g);
    }
    if group in others {
      DropConcat(current, [group], others);
      assert Drop([group], others) == [];
      DropTwice(current, {group}, others);
      assert {group} + others == others;
    }
    if NoRepeats(current) {
      DropKeepsDistinct(current, {group});
    }
  }

  /** Conservation: over any interleaving of edits by routing peers, the groups none of them manages keep
      their order and number, and each managed group is present exactly as its last edit asked. */
  lemma {:induction false} EditsConserve(edits: seq<Edit>, a: Account, managed: set<string>)
    requires a.Account? && Managed(edits) <= managed
    ensures Run(edits, a).Account?
    ensures Drop(Listed(Run(edits, a)), managed) == Drop(Listed(a), managed)
    ensures forall g :: g in Listed(Run(edits, a)) <==> LastFlag(edits, a, g)
    ensures NoRepeats(Listed(a)) ==> NoRepeats(Listed(Run(edits, a)))
  {
    if edits != [] {
      var front, e := edits[..|edits| - 1], edits[|edits| - 1];
      assert forall x :: x in front ==> x in edits;
      assert e in edits;
      EditsConserve(front, a, managed);
      assert e.group in managed;
      AppliedFacts(Run(front, a), e.group, e.exempt, managed);
    }
  }

  /** The entries that were there and stayed come first, in their order; whatever was switched on stands after them. */
  lemma {:induction false} NewcomersLast(edits: seq<Edit>, a: Account) returns (gone: set<string>, added: seq<string>)
    requires a.Account?
    ensures Listed(Run(edits, a)) == Drop(Listed(a), gone) + added && gone <= Managed(edits)
    ensures forall g :: g in added ==> g in Managed(edits) && (g in Listed(a) ==> g in gone)
  {
    if edits == [] {
      gone, added := {}, [];
      DropNothing(Listed(a), {});
    } else {
      var front, e := edits[..|edits| - 1], edits[|edits| - 1];
      assert forall x :: x in front ==> x in edits;
      assert e in edits;
      gone, added := NewcomersLast(front, a);
      EditsConserve(front, a, Managed(front));
      var before := Listed(Run(front, a));
      DropMembers(Listed(a), gone, e.group);
      if e.exempt && e.group !in before {
        added := added + [e.group];
      } else if !e.exempt && e.group in before {
        DropConcat(Drop(Listed(a), gone), added, {e.group});
        DropTwice(Listed(a), gone, {e.group});
        forall g ensures g in Drop(added, {e.group}) ==> g in added {
          DropMembers(added, {e.group}, g);
        }
        gone, added := gone + {e.group}, Drop(added, {e.group});
      }
    }
  }

  /** A peer whose last applied flag already holds issues no update: the account is left as it is. */
  lemma DesiredStateIsQuiet(edits: seq<Edit>, a: Account, group: string, exempt: bool)
    requires a.Account?
    ensures Applied(Run(edits, a), group, exempt) == Run(edits, a) <==> (LastFlag(edits, a, group) <==> exempt)
  {
    EditsConserve(edits, a, Managed(edits));
    AppliedFacts(Run(edits, a), group, exempt, {});
  }
}
