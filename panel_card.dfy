/**
 * A gallery card's own state: whether the viewer likes the panel, the
 * count shown beside the heart, and whether the overflow menu is open.
 * The card starts from the `likes` and `isLiked` it was given and never
 * reports back; the `onLike`/`onShare` callbacks are not modelled.
 */
module PanelCard {

  datatype CardState = CardState(liked: bool, likeCount: int, showMenu: bool)

  function Indicator(b: bool): int {
    if b then 1 else 0
  }

  /** The state a card is mounted with. */
  function Initial(likes: int, isLiked: bool): (s: CardState)
    ensures s.liked == isLiked && s.likeCount == likes && !s.showMenu
  {
    CardState(isLiked, likes, false)
  }

  /**
   * The count always equals the given `likes`, plus one if the viewer now
   * likes the panel, minus one if they liked it on arrival.
   */
  predicate CountConsistent(s: CardState, likes: int, isLiked: bool) {
    s.likeCount == likes + Indicator(s.liked) - Indicator(isLiked)
  }

  /** `handleLike`: flip `liked`, and move the count one step the same way. */
  function Liked(s: CardState): (r: CardState)
    ensures r.liked == !s.liked && r.showMenu == s.showMenu
    ensures r.liked ==> r.likeCount == s.likeCount + 1
    ensures !r.liked ==> r.likeCount == s.likeCount - 1
  {
    s.(liked := !s.liked, likeCount := if s.liked then s.likeCount - 1 else s.likeCount + 1)
  }

  /** `toggleMenu`. */
  function MenuToggled(s: CardState): (r: CardState)
    ensures r.showMenu == !s.showMenu && r.liked == s.liked && r.likeCount == s.likeCount
  {
    s.(showMenu := !s.showMenu)
  }

  /** The Report and Hide entries both just close the menu. */
  function MenuClosed(s: CardState): (r: CardState)
    ensures !r.showMenu && r.liked == s.liked && r.likeCount == s.likeCount
  {
    s.(showMenu := false)
  }

  lemma InitialConsistent(likes: int, isLiked: bool)
    ensures CountConsistent(Initial(likes, isLiked), likes, isLiked)
  {
  }

  /** Every handler keeps the count consistent with the flag. */
  lemma HandlersKeepCount(s: CardState, likes: int, isLiked: bool)
    requires CountConsistent(s, likes, isLiked)
    ensures CountConsistent(Liked(s), likes, isLiked)
    ensures CountConsistent(MenuToggled(s), likes, isLiked)
    ensures CountConsistent(MenuClosed(s), likes, isLiked)
  {
  }

  /** So the count is never more than one away from the given `likes`. */
  lemma CountNearGiven(s: CardState, likes: int, isLiked: bool)
    requires CountConsistent(s, likes, isLiked)
    ensures likes - 1 <= s.likeCount <= likes + 1
    ensures s.liked == isLiked ==> s.likeCount == likes
  {
  }

  /** Two likes in a row restore the state. */
  lemma LikeTwice(s: CardState)
    ensures Liked(Liked(s)) == s
  {
  }

  /** Toggling the menu twice restores it; closing it twice is closing it once. */
  lemma MenuToggleTwice(s: CardState)
    ensures MenuToggled(MenuToggled(s)) == s
    ensures MenuClosed(MenuClosed(s)) == MenuClosed(s)
  {
  }

  class Card {
    const likes: int
    const isLiked: bool
    var liked: bool
    var likeCount: int
    var showMenu: bool

    function State(): CardState
      reads this
    {
      CardState(liked, likeCount, showMenu)
    }

    ghost predicate Valid()
      reads this
    {
      CountConsistent(State(), likes, isLiked)
    }

    constructor(likes: int, isLiked: bool)
      ensures this.likes == likes && this.isLiked == isLiked
      ensures State() == Initial(likes, isLiked)
      ensures Valid()
    {
      this.likes, this.isLiked := likes, isLiked;
      liked, likeCount, showMenu := isLiked, likes, false;
    }

    method HandleLike()
      requires Valid()
      modifies this
      ensures State() == Liked(old(State()))
      ensures Valid()
    {
      var wasLiked := liked;
      liked := !wasLiked;
      likeCount := if wasLiked then likeCount - 1 else likeCount + 1;
    }

    method ToggleMenu()
      requires Valid()
      modifies this
      ensures State() == MenuToggled(old(State()))
      ensures Valid()
    {
      showMenu := !showMenu;
    }

    /** A click on Report or Hide. */
    method CloseMenu()
      requires Valid()
      modifies this
      ensures State() == MenuClosed(old(State()))
      ensures Valid()
    {
      showMenu := false;
    }
  }
}
