/** The persisted guest identity of `src/services/guestMode.ts`: a store
    with two fields, `isGuest` and `guestId`, that `setGuestMode`
    overwrites as a pair. `Math.random()` is the `randomDigits` parameter;
    persistence across reloads is not modelled. */
module GuestMode {
  import opened Common

  /** `guest_${Math.random().toString(36).substring(2)}`. */
  function NewGuestId(randomDigits: string): (id: string)
    ensures |id| == 6 + |randomDigits|
    ensures id[..6] == "guest_" && id[6..] == randomDigits
  {
    "guest_" + randomDigits
  }

  /** Different random digits give different guest ids, so a guest session
      started after `exitGuestMode` never reuses an earlier session's id
      unless the random source repeats itself. */
  lemma NewGuestIdInjective(a: string, b: string)
    ensures NewGuestId(a) == NewGuestId(b) <==> a == b
  {
    if NewGuestId(a) == NewGuestId(b) {
      assert a == NewGuestId(a)[6..];
    }
  }

  class GuestStore {
    var isGuest: bool
    var guestId: Option<string>

    /** The identity invariant: a guest id is held exactly in guest mode. */
    ghost predicate Valid()
      reads this
    {
      isGuest <==> guestId.Some?
    }

    /** The initial state `{ isGuest: false, guestId: null }`. */
    constructor ()
      ensures Valid()
      ensures !isGuest && guestId == None
    {
      isGuest := false;
      guestId := None;
    }

    /** `setGuestMode(enabled)`: entering guest mode installs a fresh
        `guest_` id; leaving it clears the id, whatever the previous state. */
    method SetGuestMode(enabled: bool, randomDigits: string)
      modifies this
      ensures Valid()
      ensures enabled ==> isGuest && guestId == Some(NewGuestId(randomDigits))
      ensures !enabled ==> !isGuest && guestId == None
    {
      if enabled {
        var id := NewGuestId(randomDigits);
        isGuest, guestId := true, Some(id);
      } else {
        isGuest, guestId := false, None;
      }
    }

    /** `continueAsGuest` is `setGuestMode(true)`. */
    method ContinueAsGuest(randomDigits: string)
      modifies this
      ensures Valid()
      ensures isGuest && guestId == Some(NewGuestId(randomDigits))
      ensures Present(guestId)
    {
      SetGuestMode(true, randomDigits);
    }

    /** `exitGuestMode` is `setGuestMode(false)`. */
    method ExitGuestMode()
      modifies this
      ensures Valid()
      ensures !isGuest && guestId == None
      ensures !Present(guestId)
    {
      SetGuestMode(false, "");
    }

    /** `isGuestUser` reads the flag and changes nothing. */
    method IsGuestUser() returns (b: bool)
      ensures b == isGuest
    {
      b := isGuest;
    }

    /** `getGuestId` reads the id and changes nothing; in a valid store it
        is present exactly in guest mode. */
    method GetGuestId() returns (id: Option<string>)
      requires Valid()
      ensures id == guestId
      ensures id.Some? <==> isGuest
    {
      id := guestId;
    }
  }
}
