/** The guest skills store of `src/services/guestSkillsStorage.ts`: each
    guest's skills live in `localStorage` under `guest_skills_<id>`.
    `localStorage` is the `storage` map, the guest id is what `getGuestId()`
    returns, and the clock and `Math.random()` are parameters. */
module GuestSkillsStorage {
  import opened Common
  import GuestStorage

  datatype Skill = Skill(id: string, name: string, section: string, createdAt: string, updatedAt: string)

  /** `${STORAGE_KEYS.SKILLS}_${guestId}`. */
  function StorageKey(guestId: string): (k: string)
    ensures |k| == 13 + |guestId|
    ensures k[..13] == "guest_skills_" && k[13..] == guestId
  {
    "guest_skills_" + guestId
  }

  /** Distinct guests never share a storage key. */
  lemma StorageKeyInjective(a: string, b: string)
    ensures StorageKey(a) == StorageKey(b) <==> a == b
  {
    if StorageKey(a) == StorageKey(b) {
      assert a == StorageKey(a)[13..];
    }
  }

  /** The skills keys and the health-record keys share `localStorage` but
      never collide: the prefixes differ at their seventh character. */
  lemma KeysDisjointFromHealthKeys(a: string, b: string)
    ensures StorageKey(a) != GuestStorage.StorageKey(b)
  {
    assert StorageKey(a)[6] == 's';
    assert GuestStorage.StorageKey(b)[6] == 'h';
  }

  /** `skills.findIndex(skill => skill.id === id)`. */
  function IndexOfId(skills: seq<Skill>, id: string): (i: int)
    ensures -1 <= i < |skills|
    ensures i == -1 <==> forall j :: 0 <= j < |skills| ==> skills[j].id != id
    ensures 0 <= i ==> skills[i].id == id && forall j :: 0 <= j < i ==> skills[j].id != id
    decreases |skills|
  {
    if skills == [] then -1
    else if skills[0].id == id then 0
    else
      var k := IndexOfId(skills[1..], id);
      assert forall j :: 1 <= j < |skills| ==> skills[j] == skills[1..][j - 1];
      if k == -1 then -1 else k + 1
  }

  /** `{ ...skill, ...data, updated_at }` with `data = { name }`. */
  function Renamed(skill: Skill, name: string, now: string): Skill
  {
    skill.(name := name, updatedAt := now)
  }

  /** `skills.filter(skill => skill.id !== id)`. */
  function WithoutId(skills: seq<Skill>, id: string): (r: seq<Skill>)
    ensures forall x :: x in r <==> x in skills && x.id != id
    ensures |r| == |skills| <==> forall j :: 0 <= j < |skills| ==> skills[j].id != id
  {
    FilterKeepsAll(skills, (s: Skill) => s.id != id);
    Filter(skills, (s: Skill) => s.id != id)
  }

  /** After a removal no element carries the id, so removing it again finds
      nothing and keeps the list. */
  lemma RemoveTwice(skills: seq<Skill>, id: string)
    ensures var once := WithoutId(skills, id);
      |WithoutId(once, id)| == |once| && WithoutId(once, id) == once
  {
    var once := WithoutId(skills, id);
    assert forall j :: 0 <= j < |once| ==> once[j] in once;
    FilterKeepsAll(once, (s: Skill) => s.id != id);
  }

  /** The guest namespace of `localStorage` holding skills. */
  class GuestSkillsStore {
    var storage: map<string, seq<Skill>>

    constructor ()
      ensures storage == map[]
    {
      storage := map[];
    }

    /** `getGuestSkills`: no guest id, or no stored key, gives `[]`. */
    function GetGuestSkills(guestId: Option<string>): (r: seq<Skill>)
      reads this
      ensures !Present(guestId) ==> r == []
      ensures Present(guestId) && StorageKey(guestId.value) !in storage ==> r == []
      ensures Present(guestId) && StorageKey(guestId.value) in storage ==> r == storage[StorageKey(guestId.value)]
    {
      if !Present(guestId) then []
      else if StorageKey(guestId.value) in storage then storage[StorageKey(guestId.value)]
      else []
    }

    /** `saveGuestSkill`: appends one skill with the given name and section
        and equal creation and update times, and returns it; without a guest
        it changes nothing and returns null. */
    method SaveGuestSkill(guestId: Option<string>, name: string, section: string,
                          nowIso: string, randomDigits: string, nowMs: nat)
      returns (r: Option<Skill>)
      modifies this
      ensures !Present(guestId) ==> r == None && storage == old(storage)
      ensures Present(guestId) ==>
        && r.Some?
        && r.value == Skill(GuestRecordId(randomDigits, nowMs), name, section, nowIso, nowIso)
        && r.value.createdAt == r.value.updatedAt
        && GetGuestSkills(guestId) == old(GetGuestSkills(guestId)) + [r.value]
        && storage == old(storage)[StorageKey(guestId.value) := old(GetGuestSkills(guestId)) + [r.value]]
      ensures forall g: string :: Some(g) != guestId ==> GetGuestSkills(Some(g)) == old(GetGuestSkills(Some(g)))
    {
      if !Present(guestId) {
        return None;
      }
      var skills := GetGuestSkills(guestId);
      var newSkill := Skill(GuestRecordId(randomDigits, nowMs), name, section, nowIso, nowIso);
      skills := skills + [newSkill];
      storage := storage[StorageKey(guestId.value) := skills];
      forall g: string | Some(g) != guestId
        ensures GetGuestSkills(Some(g)) == old(GetGuestSkills(Some(g)))
      {
        StorageKeyInjective(g, guestId.value);
      }
      r := Some(newSkill);
    }

    /** `updateGuestSkill`: an unknown id (or no guest) gives null and no
        write; a known id renames its first match in place, refreshes
        `updated_at`, and keeps id, section, creation time and every other
        element. */
    method UpdateGuestSkill(guestId: Option<string>, id: string, name: string, nowIso: string)
      returns (r: Option<Skill>)
      modifies this
      ensures var old_ := old(GetGuestSkills(guestId));
        var i := IndexOfId(old_, id);
        && (!Present(guestId) || i == -1 ==> r == None && storage == old(storage))
        && (Present(guestId) && i >= 0 ==>
              && r == Some(Renamed(old_[i], name, nowIso))
              && r.value.id == id
              && r.value.section == old_[i].section
              && r.value.createdAt == old_[i].createdAt
              && GetGuestSkills(guestId) == old_[i := r.value]
              && storage == old(storage)[StorageKey(guestId.value) := old_[i := r.value]])
      ensures forall g: string :: Some(g) != guestId ==> GetGuestSkills(Some(g)) == old(GetGuestSkills(Some(g)))
    {
      if !Present(guestId) {
        return None;
      }
      var skills := GetGuestSkills(guestId);
      var skillIndex := IndexOfId(skills, id);
      if skillIndex == -1 {
        return None;
      }
      var updatedSkill := Renamed(skills[skillIndex], name, nowIso);
      skills := skills[skillIndex := updatedSkill];
      storage := storage[StorageKey(guestId.value) := skills];
      forall g: string | Some(g) != guestId
        ensures GetGuestSkills(Some(g)) == old(GetGuestSkills(Some(g)))
      {
        StorageKeyInjective(g, guestId.value);
      }
      r := Some(updatedSkill);
    }

    /** `deleteGuestSkill`: false, with nothing written, exactly when there
        is no guest or no element has the id; otherwise every element with
        the id is removed and the rest keep their order. */
    method DeleteGuestSkill(guestId: Option<string>, id: string) returns (deleted: bool)
      modifies this
      ensures deleted <==> Present(guestId) && exists j :: 0 <= j < |old(GetGuestSkills(guestId))|
                                                       && old(GetGuestSkills(guestId))[j].id == id
      ensures !deleted ==> storage == old(storage)
      ensures deleted ==> GetGuestSkills(guestId) == WithoutId(old(GetGuestSkills(guestId)), id)
      ensures deleted ==> storage == old(storage)[StorageKey(guestId.value) := WithoutId(old(GetGuestSkills(guestId)), id)]
      ensures forall g: string :: Some(g) != guestId ==> GetGuestSkills(Some(g)) == old(GetGuestSkills(Some(g)))
    {
      if !Present(guestId) {
        return false;
      }
      var skills := GetGuestSkills(guestId);
      var filteredSkills := WithoutId(skills, id);
      if |filteredSkills| == |skills| {
        return false;
      }
      storage := storage[StorageKey(guestId.value) := filteredSkills];
      forall g: string | Some(g) != guestId
        ensures GetGuestSkills(Some(g)) == old(GetGuestSkills(Some(g)))
      {
        StorageKeyInjective(g, guestId.value);
      }
      deleted := true;
    }

    /** `clearGuestSkills`: afterwards the guest's list reads as `[]`. */
    method ClearGuestSkills(guestId: Option<string>)
      modifies this
      ensures !Present(guestId) ==> storage == old(storage)
      ensures Present(guestId) ==> storage == old(storage) - {StorageKey(guestId.value)}
      ensures GetGuestSkills(guestId) == []
    {
      if !Present(guestId) {
        return;
      }
      storage := storage - {StorageKey(guestId.value)};
    }
  }
}
