/**
 * The two-click delete of the project and career lists. A click on an
 * item's delete button issues the delete only when the item's confirmation
 * flag is already set in the page's session state; otherwise it sets the
 * flag and only warns. The flag is never cleared.
 */
module DeleteConfirm {

  /** The flag key of a project's delete button. */
  function ProjectKey(projectId: string): string
  {
    "confirm_delete_project_" + projectId
  }

  /** The flag key of a career's delete button. */
  function CareerKey(careerId: string): string
  {
    "confirm_delete_" + careerId
  }

  /** Different items of one kind have different flags. */
  lemma KeysDistinguishItems(a: string, b: string)
    ensures ProjectKey(a) == ProjectKey(b) ==> a == b
    ensures CareerKey(a) == CareerKey(b) ==> a == b
  {
    if ProjectKey(a) == ProjectKey(b) {
      assert a == ProjectKey(a)[23..] && b == ProjectKey(b)[23..];
    }
    if CareerKey(a) == CareerKey(b) {
      assert a == CareerKey(a)[15..] && b == CareerKey(b)[15..];
    }
  }

  /** `st.session_state.get(key, False)`. */
  predicate IsSet(flags: map<string, bool>, key: string) {
    key in flags && flags[key]
  }

  /** The flags after a click on the button with flag `key`: set, whatever
      they held before. */
  function AfterClick(flags: map<string, bool>, key: string): (r: map<string, bool>)
    ensures IsSet(r, key)
    ensures forall k :: k != key ==> (k in r <==> k in flags) && (k in flags ==> r[k] == flags[k])
  {
    if IsSet(flags, key) then flags else flags[key := true]
  }

  /** Whether each of a run of clicks issues its delete, starting from `flags`. */
  function Issued(flags: map<string, bool>, clicks: seq<string>): (r: seq<bool>)
    ensures |r| == |clicks|
    decreases |clicks|
  {
    if clicks == [] then []
    else [IsSet(flags, clicks[0])] + Issued(AfterClick(flags, clicks[0]), clicks[1..])
  }

  /** A click issues its delete exactly when the flag was set before the run
      or the same button was clicked earlier in the run: starting from a
      fresh session, the first click on an item only arms it, and the second
      and every later one delete it. */
  lemma {:induction false} IssuedSpec(flags: map<string, bool>, clicks: seq<string>)
    ensures forall i :: 0 <= i < |clicks| ==>
              (Issued(flags, clicks)[i] <==> IsSet(flags, clicks[i]) || clicks[i] in clicks[..i])
    decreases |clicks|
  {
    if clicks != [] {
      var after := AfterClick(flags, clicks[0]);
      IssuedSpec(after, clicks[1..]);
      forall i | 0 <= i < |clicks|
        ensures Issued(flags, clicks)[i] <==> IsSet(flags, clicks[i]) || clicks[i] in clicks[..i]
      {
        if i > 0 {
          assert clicks[1..][i - 1] == clicks[i];
          assert clicks[..i] == [clicks[0]] + clicks[1..][..i - 1];
          assert Issued(flags, clicks)[i] == Issued(after, clicks[1..])[i - 1];
        }
      }
    }
  }

  /** The page's session state, as far as the delete buttons use it. */
  class Session {
    var flags: map<string, bool>

    constructor ()
      ensures flags == map[]
    {
      flags := map[];
    }

    /** One click on the delete button with flag `key`. */
    method ClickDelete(key: string) returns (issue: bool)
      modifies this
      ensures issue == IsSet(old(flags), key)
      ensures flags == AfterClick(old(flags), key)
    {
      if key in flags && flags[key] {
        issue := true;
      } else {
        flags := flags[key := true];
        issue := false;
      }
    }
  }

  /** In a fresh session two clicks on the same button delete on the second
      click and not the first. */
  method TwoClicks(key: string) returns (first: bool, second: bool)
    ensures !first && second
  {
    var session := new Session();
    first := session.ClickDelete(key);
    second := session.ClickDelete(key);
  }
}
