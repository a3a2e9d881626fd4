/**
 * `CountryCard`: one country's card with its favorite star. The card keeps
 * its own `isFavorite` flag and rewrites the stored list from that flag, so a
 * flag that is out of date makes the stored list wrong (see `StaleAddDuplicates`).
 */
module CountryCard {
  import opened Browser
  import opened Seqs

  /** The animation the star plays: `''`, `'adding'` or `'removing'`. */
  datatype Animation = Idle | Adding | Removing

  /** A callback waiting on a `setTimeout`. `SetFavorite` carries the value the click computed from the flag it saw. */
  datatype TimerCallback = SetFavorite(value: bool) | ClearAnimation

  /** The list the click writes: without the code when the flag says favorite, with it appended otherwise. */
  function ToggledList(stored: seq<string>, isFavorite: bool, code: string): (r: seq<string>)
    ensures isFavorite ==> code !in r && IsSubsequence(r, stored)
    ensures isFavorite ==> forall id :: id != code ==> multiset(r)[id] == multiset(stored)[id]
    ensures isFavorite ==> |r| == |stored| - multiset(stored)[code]
    ensures !isFavorite ==> |r| == |stored| + 1 && r[..|stored|] == stored && r[|stored|] == code
  {
    if isFavorite then Without(stored, code) else stored + [code]
  }

  /** Adding a code that was not there and then removing it gives back the original list. */
  lemma {:induction false} AddThenRemoveRestores(stored: seq<string>, code: string)
    requires code !in stored
    ensures ToggledList(ToggledList(stored, false, code), true, code) == stored
  {
    var p := (id: string) => id != code;
    FilterAppend(stored, [code], p);
    FilterAllPass(stored, p);
    assert Filter([code], p) == [];
  }

  /** Two clicks made before the flag flips both append: the code is then stored twice. */
  lemma StaleAddDuplicates(stored: seq<string>, code: string)
    ensures ToggledList(ToggledList(stored, false, code), false, code) == stored + [code, code]
  {
  }

  class Card {
    const window: Window
    const cca3: string
    var isFavorite: bool
    var animationState: Animation
    /** Pending timer callbacks; the timer that fires next is chosen from outside. */
    var timers: seq<TimerCallback>

    constructor (window: Window, cca3: string)
      ensures this.window == window && this.cca3 == cca3
      ensures !isFavorite && animationState == Idle && timers == []
    {
      this.window := window;
      this.cca3 := cca3;
      isFavorite := false;
      animationState := Idle;
      timers := [];
    }

    /** The mount effect: the flag becomes whether `cca3` is stored. `ok` is false when the stored text does not parse and the effect throws. */
    method CheckMembership() returns (ok: bool)
      modifies this
      ensures ok <==> ReadFavorites(window.session).Parsed?
      ensures ok ==> isFavorite == (cca3 in ReadFavorites(window.session).ids)
      ensures !ok ==> isFavorite == old(isFavorite)
      ensures animationState == old(animationState) && timers == old(timers)
    {
      var read := ReadFavorites(window.session);
      ok := read.Parsed?;
      if ok {
        isFavorite := cca3 in read.ids;
      }
    }

    /**
     * The star's click handler. It sets the animation, reads the list, writes
     * the toggled list as one whole value, and schedules the flag flip. When the
     * stored text does not parse, the handler throws after setting the animation.
     */
    method ToggleFavorite() returns (ok: bool)
      modifies this, window
      ensures animationState == (if old(isFavorite) then Removing else Adding)
      ensures isFavorite == old(isFavorite)
      ensures window.local == old(window.local) && window.setItemWrapped == old(window.setItemWrapped)
      ensures ok <==> old(ReadFavorites(window.session)).Parsed?
      ensures ok ==> (var written := IdList(ToggledList(old(ReadFavorites(window.session)).ids, old(isFavorite), cca3));
                      && window.session == old(window.session)[FavoritesKey := written]
                      && window.trace == old(window.trace) + [SessionWrite(FavoritesKey, written)]
                                         + (if window.setItemWrapped then [Dispatched(FavoritesUpdated)] else [])
                      && timers == old(timers) + [SetFavorite(!old(isFavorite))])
      ensures !ok ==> window.session == old(window.session) && window.trace == old(window.trace) && timers == old(timers)
    {
      animationState := if isFavorite then Removing else Adding;
      var read := ReadFavorites(window.session);
      if read.ParseError? {
        return false;
      }
      var updated := ToggledList(read.ids, isFavorite, cca3);
      window.SessionSetItem(FavoritesKey, IdList(updated));
      timers := timers + [SetFavorite(!isFavorite)];
      ok := true;
    }

    /** Timer `i` fires: the 300 ms one sets the flag and schedules the 600 ms one, which resets the animation. */
    method RunTimer(i: nat)
      requires i < |timers|
      modifies this
      ensures old(timers[i]).SetFavorite? ==>
                isFavorite == old(timers[i]).value && animationState == old(animationState)
                && timers == old(timers[..i] + timers[i + 1..]) + [ClearAnimation]
      ensures old(timers[i]).ClearAnimation? ==>
                animationState == Idle && isFavorite == old(isFavorite)
                && timers == old(timers[..i] + timers[i + 1..])
    {
      var callback := timers[i];
      timers := timers[..i] + timers[i + 1..];
      match callback
      case SetFavorite(v) =>
        isFavorite := v;
        timers := timers + [ClearAnimation];
      case ClearAnimation =>
        animationState := Idle;
    }
  }

  /**
   * A favorite added and removed again on one card, with the first timer fired
   * in between: the stored list holds the code after the first click and is the
   * original list after the second.
   */
  method AddRemoveScenario(stored: seq<string>, code: string) returns (afterAdd: seq<string>, afterRemove: seq<string>)
    requires code !in stored
    ensures afterAdd == stored + [code]
    ensures afterRemove == stored
  {
    var window := new Window(map[FavoritesKey := IdList(stored)], map[]);
    var card := new Card(window, code);
    var ok := card.CheckMembership();
    ok := card.ToggleFavorite();
    afterAdd := window.session[FavoritesKey].ids;
    card.RunTimer(0);
    ok := card.ToggleFavorite();
    afterRemove := window.session[FavoritesKey].ids;
    AddThenRemoveRestores(stored, code);
  }

  /** Two cards for different countries, clicked one after the other: each click re-reads the list, so both codes are kept. */
  method TwoCardsScenario(first: string, second: string) returns (stored: seq<string>)
    ensures stored == [first, second]
  {
    var window := new Window(map[], map[]);
    var a := new Card(window, first);
    var b := new Card(window, second);
    var ok := a.ToggleFavorite();
    ok := b.ToggleFavorite();
    stored := window.session[FavoritesKey].ids;
  }

  /** Two clicks on one card before its first timer fires: the code is appended twice. */
  method DoubleClickScenario(code: string) returns (stored: seq<string>)
    ensures stored == [code, code]
  {
    var window := new Window(map[], map[]);
    var card := new Card(window, code);
    var ok := card.ToggleFavorite();
    ok := card.ToggleFavorite();
    stored := window.session[FavoritesKey].ids;
  }
}
