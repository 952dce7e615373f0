/** The administrator dashboard, src/app/admin/page.tsx: the avatar helpers
    `getInitials` and `getAvatarColor`, the three queries of `fetchData`, and
    the two delete actions that update the local lists. */
module AdminDashboard {
  import opened Common
  import opened Text
  import Store
  import RoleGuard

  /** `s.split(" ")`: the pieces between single spaces. Two spaces in a row
      give an empty piece, and the empty string gives one empty piece. */
  function Split(s: string): (r: seq<string>)
    ensures |r| >= 1
    ensures forall w :: w in r ==> ' ' !in w
    decreases |s|
  {
    if s == [] then [""]
    else
      var rest := Split(s[1..]);
      if s[0] == ' ' then [""] + rest
      else
        assert rest[0] in rest;
        [[s[0]] + rest[0]] + rest[1..]
  }

  /** `words.join(" ")`. */
  function Join(words: seq<string>): string
    requires |words| >= 1
  {
    if |words| == 1 then words[0] else words[0] + " " + Join(words[1..])
  }

  /** Joining the pieces with single spaces gives back the original string. */
  lemma {:induction false} JoinSplit(s: string)
    ensures Join(Split(s)) == s
    decreases |s|
  {
    if s != [] {
      JoinSplit(s[1..]);
      var rest := Split(s[1..]);
      if s[0] == ' ' {
        assert ([""] + rest)[1..] == rest;
      } else {
        var r := [[s[0]] + rest[0]] + rest[1..];
        assert r[1..] == rest[1..];
        if |rest| > 1 {
          assert Join(rest) == rest[0] + " " + Join(rest[1..]);
        }
      }
    }
  }

  /** `word.charAt(0)`: the first character, or "" for an empty word. */
  function FirstChar(w: string): string {
    if w == "" then "" else [w[0]]
  }

  /** `.map((word) => word.charAt(0)).join("")`. */
  function FirstChars(words: seq<string>): string {
    if words == [] then "" else FirstChar(words[0]) + FirstChars(words[1..])
  }

  /** An independent reading of the same characters: those of `s` that are
      not spaces and stand first (`atStart`) or right after a space. */
  function WordStarts(s: string, atStart: bool): (r: string)
    ensures |r| <= |s|
    ensures ' ' !in r
  {
    if s == [] then ""
    else (if atStart && s[0] != ' ' then [s[0]] else "") + WordStarts(s[1..], s[0] == ' ')
  }

  /** The first characters of the pieces of `s` are the characters that
      start a word of `s`; after the first character of a word, the pieces
      from the second one on are what remains. */
  lemma {:induction false} FirstCharsAreWordStarts(s: string, atStart: bool)
    ensures WordStarts(s, atStart) == if atStart then FirstChars(Split(s)) else FirstChars(Split(s)[1..])
    decreases |s|
  {
    if s == [] {
      assert Split(s)[1..] == [];
    } else {
      FirstCharsAreWordStarts(s[1..], s[0] == ' ');
      var rest := Split(s[1..]);
      if s[0] == ' ' {
        var r := [""] + rest;
        assert r[1..] == rest;
      } else {
        var r := [[s[0]] + rest[0]] + rest[1..];
        assert r[1..] == rest[1..];
      }
    }
  }

  function Min(a: int, b: int): int { if a < b then a else b }

  /** `getInitials`: the upper-cased first characters of the words of the
      name, at most two of them. */
  function Initials(name: string): (r: string)
    ensures |r| <= 2
    ensures r == ToUpper(WordStarts(name, true))[..Min(2, |WordStarts(name, true)|)]
  {
    FirstCharsAreWordStarts(name, true);
    var all := ToUpper(FirstChars(Split(name)));
    all[..Min(2, |all|)]
  }

  /** Initials never contain a space, whatever spacing the name has. */
  lemma InitialsHaveNoSpace(name: string)
    ensures ' ' !in Initials(name)
  {
    var starts := WordStarts(name, true);
    forall i | 0 <= i < |Initials(name)| ensures Initials(name)[i] != ' ' {
      assert starts[i] in starts;
    }
  }

  const Palette: seq<string> := [
    "bg-blue-500", "bg-green-500", "bg-purple-500", "bg-pink-500",
    "bg-indigo-500", "bg-yellow-500", "bg-red-500", "bg-teal-500"]

  /** `getAvatarColor`: a palette colour chosen by the code of the first
      character; `None` for an empty name, where `charCodeAt(0)` is NaN and
      the lookup is undefined. */
  function AvatarColor(name: string): (r: Option<string>)
    ensures r.None? <==> name == ""
    ensures r.Some? ==> r.value in Palette
    ensures name != "" ==> r == Some(Palette[(name[0] as int) % 8])
  {
    if name == "" then None else Some(Palette[(name[0] as int) % |Palette|])
  }

  /** The colour depends only on the first character's code modulo the
      palette size, and each colour is the one of a one-letter name. */
  lemma AvatarColorByFirstChar(a: string, b: string)
    requires a != "" && b != "" && (a[0] as int) % 8 == (b[0] as int) % 8
    ensures AvatarColor(a) == AvatarColor(b)
  {
  }

  /** Every palette entry is used: the eight codes 'h'..'o' (104..111) hit
      the eight entries in order. */
  lemma EveryColorUsed(k: nat)
    requires k < 8
    ensures AvatarColor([(104 + k) as char]) == Some(Palette[k])
  {
  }

  /** Which of the three queries of `fetchData` throws, if any. */
  datatype Fault = NoFault | ActiveQueryFails | PendingQueryFails | WorkshopsQueryFails

  const DeleteUserError := "Erro ao excluir usuário"
  const DeleteWorkshopError := "Erro ao excluir oficina"

  class AdminPage {
    var users: seq<Doc<Profile>>
    var workshops: seq<Doc<Workshop>>
    var pendingUsersCount: nat
    var loadingData: bool
    var alerts: seq<string>

    constructor ()
      ensures users == [] && workshops == [] && pendingUsersCount == 0 && loadingData && alerts == []
    {
      users := [];
      workshops := [];
      pendingUsersCount := 0;
      loadingData := true;
      alerts := [];
    }

    /** `fetchData`: the active profiles, the number of pending ones, and all
        workshops. The pending count is set as soon as its query returns, so
        a failure of the workshops query leaves it updated and the two lists
        as they were. */
    method FetchData(db: Store.Backend, fault: Fault)
      modifies this`users, this`workshops, this`pendingUsersCount, this`loadingData
      ensures !loadingData
      ensures fault == NoFault ==>
        Store.IsQueryResult(users, db.users, IsActive) && Store.IsQueryResult(workshops, db.workshops, Store.Any)
      ensures fault != NoFault ==> users == old(users) && workshops == old(workshops)
      ensures fault == NoFault || fault == WorkshopsQueryFails ==>
        pendingUsersCount == |Store.MatchingIds(db.users, IsPending)|
      ensures fault == ActiveQueryFails || fault == PendingQueryFails ==> pendingUsersCount == old(pendingUsersCount)
    {
      if fault == ActiveQueryFails {
        loadingData := false;
        return;
      }
      var active := Store.Where(db.users, IsActive);
      if fault == PendingQueryFails {
        loadingData := false;
        return;
      }
      var pending := Store.Where(db.users, IsPending);
      Store.QueryResultCount(pending, db.users, IsPending);
      pendingUsersCount := |pending|;
      if fault == WorkshopsQueryFails {
        loadingData := false;
        return;
      }
      var all := Store.Where(db.workshops, Store.Any);
      users := active;
      workshops := all;
      loadingData := false;
    }

    /** `deleteUser`: after the confirmation, the profile is deleted and the
        entries with its id leave the local list; a failed delete alerts. A
        list that mirrored the active-profile query still mirrors it. */
    method DeleteUser(db: Store.Backend, id: string, confirmed: bool, write: Outcome)
      modifies this`users, this`alerts, db`users
      ensures db.users == if confirmed && write.Done? then old(db.users) - {id} else old(db.users)
      ensures users == if confirmed && write.Done? then Store.FilterOutId(old(users), id) else old(users)
      ensures alerts == if confirmed && write.Failed? then old(alerts) + [DeleteUserError] else old(alerts)
      ensures old(Store.IsQueryResult(users, db.users, IsActive)) ==> Store.IsQueryResult(users, db.users, IsActive)
    {
      if confirmed {
        ghost var before := users;
        var result := db.DeleteUser(id, write);
        if result.Done? {
          users := Store.FilterOutId(users, id);
          if Store.IsQueryResult(before, old(db.users), IsActive) {
            Store.FilterOutIdAfterDelete(before, old(db.users), IsActive, id);
          }
        } else {
          alerts := alerts + [DeleteUserError];
        }
      }
    }

    /** `deleteWorkshop`, the same steps on the workshops collection. */
    method DeleteWorkshop(db: Store.Backend, id: string, confirmed: bool, write: Outcome)
      modifies this`workshops, this`alerts, db`workshops
      ensures db.workshops == if confirmed && write.Done? then old(db.workshops) - {id} else old(db.workshops)
      ensures workshops == if confirmed && write.Done? then Store.FilterOutId(old(workshops), id) else old(workshops)
      ensures alerts == if confirmed && write.Failed? then old(alerts) + [DeleteWorkshopError] else old(alerts)
      ensures old(Store.IsQueryResult(workshops, db.workshops, Store.Any)) ==>
        Store.IsQueryResult(workshops, db.workshops, Store.Any)
    {
      if confirmed {
        ghost var before := workshops;
        var result := db.DeleteWorkshop(id, write);
        if result.Done? {
          workshops := Store.FilterOutId(workshops, id);
          if Store.IsQueryResult(before, old(db.workshops), Store.Any) {
            Store.FilterOutIdAfterDelete(before, old(db.workshops), Store.Any, id);
          }
        } else {
          alerts := alerts + [DeleteWorkshopError];
        }
      }
    }
  }

  /** The dashboard's guard admits administrators only. */
  lemma OnlyAdminsSeeDashboard(loading: bool, loadingData: bool, user: Option<AuthUser>)
    ensures RoleGuard.Render(loading, loadingData, user, Admin) == RoleGuard.Content ==> IsAdmin(user)
    ensures !IsAdmin(user) && !loading ==> RoleGuard.OnSessionChange(loading, user, Admin) == RoleGuard.RedirectHome
  {
  }
}
