/**
 * The query fold of the OAuth-state notification handler: the notification
 * URL's query items are folded into `(currentUser, stateId)`.
 */
module OAuthState {
  import opened Wrappers
  import opened QueryItems

  const OAuthStateIdName: string := "oauth_state_id"
  const UserIdName: string := "user_id"

  /** The accumulator `(currentUser: Bool, stateId: String?)` of the fold. */
  datatype OAuthParameters = OAuthParameters(currentUser: bool, stateId: Option<string>)

  /**
   * A `user_id` item whose value equals the identifier stored for the signed-in
   * user. A missing stored identifier, or a bare `user_id`, matches nothing.
   */
  predicate NamesUser(item: QueryItem, storedUser: Option<string>) {
    item.name == UserIdName && storedUser.Some? && item.value == Some(storedUser.value)
  }

  ghost predicate SomeItemNamesUser(items: seq<QueryItem>, storedUser: Option<string>) {
    exists j :: 0 <= j < |items| && NamesUser(items[j], storedUser)
  }

  /**
   * The value of the last item called `name`: `None` when there is no such
   * item, and also when that last item is bare.
   */
  function LastValue(items: seq<QueryItem>, name: string): Option<string>
  {
    if items == [] then None
    else if items[|items| - 1].name == name then items[|items| - 1].value
    else LastValue(items[..|items| - 1], name)
  }

  /**
   * `queryItems.reduce(into: (currentUser: false, stateId: nil))`: every
   * `oauth_state_id` item overwrites `stateId` with its value, and a `user_id`
   * item naming the stored user sets `currentUser`, which nothing unsets.
   */
  method ReduceOAuthParameters(items: seq<QueryItem>, storedUser: Option<string>) returns (p: OAuthParameters)
    ensures p.stateId == LastValue(items, OAuthStateIdName)
    ensures p.currentUser <==> SomeItemNamesUser(items, storedUser)
  {
    p := OAuthParameters(false, None);
    var i := 0;
    while i < |items|
      invariant 0 <= i <= |items|
      invariant p.stateId == LastValue(items[..i], OAuthStateIdName)
      invariant p.currentUser <==> SomeItemNamesUser(items[..i], storedUser)
    {
      var item := items[i];
      if item.name == OAuthStateIdName {
        p := p.(stateId := item.value);
      } else if item.name == UserIdName && storedUser.Some? && item.value == Some(storedUser.value) {
        p := p.(currentUser := true);
      }
      assert items[..i + 1][..i] == items[..i];
      i := i + 1;
    }
    assert items[..i] == items;
  }

  /** The last item called `name` decides `LastValue`. */
  lemma {:induction false} LastValueIsLast(items: seq<QueryItem>, name: string, j: nat)
    requires j < |items| && items[j].name == name
    requires forall k :: j < k < |items| ==> items[k].name != name
    ensures LastValue(items, name) == items[j].value
    decreases |items|
  {
    if j < |items| - 1 {
      var init := items[..|items| - 1];
      assert init[j] == items[j];
      LastValueIsLast(init, name, j);
    }
  }

  /** With no item called `name`, `LastValue` is `None`. */
  lemma {:induction false} LastValueAbsent(items: seq<QueryItem>, name: string)
    requires forall k :: 0 <= k < |items| ==> items[k].name != name
    ensures LastValue(items, name).None?
    decreases |items|
  {
    if items != [] {
      LastValueAbsent(items[..|items| - 1], name);
    }
  }

  /** A present `LastValue` comes from an item called `name` that no later item called `name` follows. */
  lemma {:induction false} LastValueWitness(items: seq<QueryItem>, name: string)
    requires LastValue(items, name).Some?
    ensures exists j :: 0 <= j < |items| && items[j] == QueryItem(name, LastValue(items, name))
                     && forall k :: j < k < |items| ==> items[k].name != name
    decreases |items|
  {
    var n := |items| - 1;
    if items[n].name != name {
      var init := items[..n];
      LastValueWitness(init, name);
      var j :| 0 <= j < |init| && init[j] == QueryItem(name, LastValue(init, name))
               && forall k :: j < k < |init| ==> init[k].name != name;
      assert items[j] == init[j];
      assert forall k :: j < k < |items| ==> items[k].name != name by {
        forall k | j < k < |items| ensures items[k].name != name {
          if k < n { assert items[k] == init[k]; }
        }
      }
    } else {
      assert items[n] == QueryItem(name, LastValue(items, name));
    }
  }

  /** Items after the last one called `name` do not change `LastValue`. */
  lemma {:induction false} LastValueIgnoresSuffix(items: seq<QueryItem>, rest: seq<QueryItem>, name: string)
    requires forall k :: 0 <= k < |rest| ==> rest[k].name != name
    ensures LastValue(items + rest, name) == LastValue(items, name)
    decreases |rest|
  {
    if rest != [] {
      var shorter := rest[..|rest| - 1];
      var all := items + rest;
      assert all[|all| - 1] == rest[|rest| - 1];
      assert all[..|all| - 1] == items + shorter;
      LastValueIgnoresSuffix(items, shorter, name);
    } else {
      assert items + rest == items;
    }
  }

  /**
   * A bare `oauth_state_id` resets the state id: whatever came before it, the
   * fold ends with no state id unless a later `oauth_state_id` follows.
   */
  lemma BareStateIdResets(items: seq<QueryItem>, rest: seq<QueryItem>)
    requires forall k :: 0 <= k < |rest| ==> rest[k].name != OAuthStateIdName
    ensures LastValue(items + [QueryItem(OAuthStateIdName, None)] + rest, OAuthStateIdName).None?
  {
    LastValueIgnoresSuffix(items + [QueryItem(OAuthStateIdName, None)], rest, OAuthStateIdName);
  }

  /** Once some item has named the stored user, later items cannot undo it. */
  lemma CurrentUserSticks(items: seq<QueryItem>, more: seq<QueryItem>, storedUser: Option<string>)
    requires SomeItemNamesUser(items, storedUser)
    ensures SomeItemNamesUser(items + more, storedUser)
  {
    var j :| 0 <= j < |items| && NamesUser(items[j], storedUser);
    assert (items + more)[j] == items[j];
  }

  /** `?oauth_state_id=abc&user_id=U1` with stored user `U1` yields `(true, "abc")`. */
  lemma StateAndUserExample()
    ensures var items := [QueryItem(OAuthStateIdName, Some("abc")), QueryItem(UserIdName, Some("U1"))];
            LastValue(items, OAuthStateIdName) == Some("abc") && SomeItemNamesUser(items, Some("U1"))
  {
    var items := [QueryItem(OAuthStateIdName, Some("abc")), QueryItem(UserIdName, Some("U1"))];
    LastValueIsLast(items, OAuthStateIdName, 0);
    assert NamesUser(items[1], Some("U1"));
  }
}
