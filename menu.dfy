/**
 * The menu plugin: the menu node is spawned hidden, shown on entering
 * `MenuOpen`, hidden on leaving it, and Tab requests the return to
 * first-person while the menu is open.
 */
module Menu {
  import opened Wrappers
  import opened Ecs
  import opened BevyInput
  import opened GameCore

  datatype Visibility = Inherited | Hidden | Visible

  /**
   * The entities that have a `Visibility` component, which of them carry the
   * `Menu` marker, and the next fresh entity id.
   */
  class MenuWorld {
    var visibility: map<Entity, Visibility>
    var menus: set<Entity>
    var nextId: Entity

    ghost predicate Valid()
      reads this
    {
      menus <= visibility.Keys && forall e | e in visibility :: e < nextId
    }

    constructor (initial: map<Entity, Visibility>, next: Entity)
      requires forall e | e in initial :: e < next
      ensures Valid() && visibility == initial && menus == {} && nextId == next
    {
      visibility, menus, nextId := initial, {}, next;
    }
  }

  /** Every menu entity has visibility `v`. */
  predicate AllMenus(visibility: map<Entity, Visibility>, menus: set<Entity>, v: Visibility)
    requires menus <= visibility.Keys
  {
    forall e | e in menus :: visibility[e] == v
  }

  /** `visibility` with every menu entity set to `v` and every other entity as it was. */
  function SetMenus(visibility: map<Entity, Visibility>, menus: set<Entity>, v: Visibility): (r: map<Entity, Visibility>)
    requires menus <= visibility.Keys
    ensures r.Keys == visibility.Keys && AllMenus(r, menus, v)
    ensures forall e | e in visibility && e !in menus :: r[e] == visibility[e]
  {
    map e | e in visibility :: if e in menus then v else visibility[e]
  }

  /** Setting the menus twice leaves only the second setting: show then hide leaves every menu hidden. */
  lemma SetMenusTwice(visibility: map<Entity, Visibility>, menus: set<Entity>, v1: Visibility, v2: Visibility)
    requires menus <= visibility.Keys
    ensures SetMenus(SetMenus(visibility, menus, v1), menus, v2) == SetMenus(visibility, menus, v2)
  {
  }

  /** Setting the menus to the visibility they already all have changes nothing. */
  lemma SetMenusUnchanged(visibility: map<Entity, Visibility>, menus: set<Entity>, v: Visibility)
    requires menus <= visibility.Keys && AllMenus(visibility, menus, v)
    ensures SetMenus(visibility, menus, v) == visibility
  {
  }

  /** `create_menu`: spawns a new menu entity that starts hidden. */
  method CreateMenu(world: MenuWorld) returns (e: Entity)
    requires world.Valid()
    modifies world
    ensures world.Valid()
    ensures e == old(world.nextId) && e !in old(world.visibility)
    ensures world.visibility == old(world.visibility)[e := Hidden]
    ensures world.menus == old(world.menus) + {e}
  {
    e := world.nextId;
    world.visibility := world.visibility[e := Hidden];
    world.menus := world.menus + {e};
    world.nextId := world.nextId + 1;
  }

  /** The `for_each_mut` loop of `show_menu` and `hide_menu`: writes `v` into every menu's visibility. */
  method SetAllMenus(world: MenuWorld, v: Visibility)
    requires world.Valid()
    modifies world
    ensures world.Valid()
    ensures world.visibility == SetMenus(old(world.visibility), old(world.menus), v)
    ensures world.menus == old(world.menus) && world.nextId == old(world.nextId)
  {
    var toVisit := world.menus;
    while toVisit != {}
      invariant world.Valid() && world.menus == old(world.menus) && world.nextId == old(world.nextId)
      invariant toVisit <= world.menus
      invariant world.visibility.Keys == old(world.visibility).Keys
      invariant forall e | e in world.visibility ::
        world.visibility[e] == if e in world.menus && e !in toVisit then v else old(world.visibility)[e]
      decreases toVisit
    {
      var e :| e in toVisit;
      world.visibility := world.visibility[e := v];
      toVisit := toVisit - {e};
    }
    assert world.visibility == SetMenus(old(world.visibility), old(world.menus), v);
  }

  /** `show_menu`: every menu becomes visible; nothing else changes. */
  method ShowMenu(world: MenuWorld)
    requires world.Valid()
    modifies world
    ensures world.Valid()
    ensures world.visibility == SetMenus(old(world.visibility), old(world.menus), Visible)
    ensures world.menus == old(world.menus) && world.nextId == old(world.nextId)
  {
    SetAllMenus(world, Visible);
  }

  /** `hide_menu`: every menu becomes hidden; nothing else changes. */
  method HideMenu(world: MenuWorld)
    requires world.Valid()
    modifies world
    ensures world.Valid()
    ensures world.visibility == SetMenus(old(world.visibility), old(world.menus), Hidden)
    ensures world.menus == old(world.menus) && world.nextId == old(world.nextId)
  {
    SetAllMenus(world, Hidden);
  }

  /** The menu's `handle_input`: a freshly pressed Tab requests the return to first-person. */
  method HandleInput(input: Input<KeyCode>, next: NextState)
    modifies next
    ensures next.pending == if Tab in input.justPressed then Some(FirstPerson) else old(next.pending)
  {
    if Tab in input.justPressed {
      next.Set(FirstPerson);
    }
  }
}
