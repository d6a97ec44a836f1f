/** The blacklist step of both `get_password` variants: collect, in
    blacklist order, every forbidden item that occurs in the password. */
module Blacklist {
  import opened Text

  /** The items of `blacklist` that occur in `password`, in blacklist order
      (an item listed twice is collected twice). */
  function Found(blacklist: seq<string>, password: string): (found: seq<string>)
    ensures |found| <= |blacklist|
  {
    if blacklist == [] then []
    else (if IsSubstring(blacklist[0], password) then [blacklist[0]] else [])
         + Found(blacklist[1..], password)
  }

  /** `found_items` after the loop: built by appending each item that
      `item in passw` finds. */
  method CollectFound(blacklist: seq<string>, password: string) returns (found: seq<string>)
    ensures found == Found(blacklist, password)
  {
    found := [];
    for i := 0 to |blacklist|
      invariant found + Found(blacklist[i..], password) == Found(blacklist, password)
    {
      assert blacklist[i..][1..] == blacklist[i + 1..];
      if IsSubstring(blacklist[i], password) {
        found := found + [blacklist[i]];
      }
    }
    assert blacklist[|blacklist|..] == [];
  }

  /** Exactly the blacklisted items that occur are collected, and never
      more often than they are listed. */
  lemma {:induction false} FoundMembers(blacklist: seq<string>, password: string)
    ensures forall x :: x in Found(blacklist, password) <==> x in blacklist && IsSubstring(x, password)
    ensures multiset(Found(blacklist, password)) <= multiset(blacklist)
  {
    if blacklist != [] {
      FoundMembers(blacklist[1..], password);
      assert blacklist == [blacklist[0]] + blacklist[1..];
    }
  }

  /** Nothing is collected exactly when no blacklisted item occurs. */
  lemma FoundEmpty(blacklist: seq<string>, password: string)
    ensures Found(blacklist, password) == [] <==>
      forall i | 0 <= i < |blacklist| :: !IsSubstring(blacklist[i], password)
  {
    FoundMembers(blacklist, password);
    if Found(blacklist, password) != [] {
      assert Found(blacklist, password)[0] in Found(blacklist, password);
    }
  }

  /** The empty item occurs in every password, so a blacklist holding it
      rejects every password. */
  lemma EmptyItemAlwaysFound(blacklist: seq<string>, password: string)
    requires "" in blacklist
    ensures Found(blacklist, password) != []
  {
    assert OccursAt("", password, 0);
    FoundMembers(blacklist, password);
  }
}
