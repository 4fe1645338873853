/**
 * The menu route (backend/src/routes/menu.ts): the customer listing of available items sorted
 * by category and name, the category list, and the admin get, create, patch, availability
 * toggle and delete.
 */
module MenuRoute {
  import opened Wrappers
  import opened Collections
  import opened Models
  import opened Money
  import opened Database

  /** The database's ascending string order: lexicographic on character codes. */
  predicate StrLe(a: string, b: string)
    decreases |a|
  {
    a == [] || (b != [] && (a[0] < b[0] || (a[0] == b[0] && StrLe(a[1..], b[1..]))))
  }

  lemma {:induction false} StrLeTotal(a: string, b: string)
    ensures StrLe(a, b) || StrLe(b, a)
    decreases |a|
  {
    if a != [] && b != [] && a[0] == b[0] {
      StrLeTotal(a[1..], b[1..]);
    }
  }

  lemma {:induction false} StrLeAntisymmetric(a: string, b: string)
    requires StrLe(a, b) && StrLe(b, a)
    ensures a == b
    decreases |a|
  {
    if a != [] {
      StrLeAntisymmetric(a[1..], b[1..]);
      assert a == [a[0]] + a[1..] && b == [b[0]] + b[1..];
    }
  }

  lemma {:induction false} StrLeTransitive(a: string, b: string, c: string)
    requires StrLe(a, b) && StrLe(b, c)
    ensures StrLe(a, c)
    decreases |a|
  {
    if a != [] && a[0] == b[0] && b[0] == c[0] {
      StrLeTransitive(a[1..], b[1..], c[1..]);
    }
  }

  /** `sort({category: 1, name: 1})` on two items. */
  predicate ItemLe(x: MenuItem, y: MenuItem) {
    if x.category != y.category then StrLe(x.category, y.category) else StrLe(x.name, y.name)
  }

  lemma ItemLeIsPreorder()
    ensures forall x, y :: ItemLe(x, y) || ItemLe(y, x)
    ensures forall x, y, z :: ItemLe(x, y) && ItemLe(y, z) ==> ItemLe(x, z)
  {
    forall x, y ensures ItemLe(x, y) || ItemLe(y, x) {
      StrLeTotal(x.category, y.category);
      StrLeTotal(x.name, y.name);
    }
    forall x, y, z | ItemLe(x, y) && ItemLe(y, z) ensures ItemLe(x, z) {
      if x.category != y.category && y.category != z.category {
        StrLeTransitive(x.category, y.category, z.category);
        if x.category == z.category {
          StrLeAntisymmetric(y.category, z.category);
        }
      } else if x.category == y.category && y.category == z.category {
        StrLeTransitive(x.name, y.name, z.name);
      }
    }
  }

  function ItemOf(menu: map<Id, MenuItem>, id: Id): MenuItem {
    if id in menu then menu[id] else MenuItem("", "", "", 0, "", false, 0, [])
  }

  function ByCategoryAndName(menu: map<Id, MenuItem>): (Id, Id) -> bool {
    (a: Id, b: Id) => ItemLe(ItemOf(menu, a), ItemOf(menu, b))
  }

  /** The listing query: available, and in the category when one is asked for. */
  predicate Listed(item: MenuItem, category: string) {
    item.isAvailable && (category == "" || item.category == category)
  }

  /**
   * GET /menu: exactly the available items, of the requested category if any, each once,
   * sorted by category and then by name.
   */
  function AvailableMenu(menu: map<Id, MenuItem>, n: Id, category: string): (r: seq<Id>)
    requires IdsBelow(menu, n)
    ensures forall id :: id in r <==> id in menu && Listed(menu[id], category)
    ensures forall i, j :: 0 <= i < j < |r| ==> ItemLe(menu[r[i]], menu[r[j]])
    ensures Distinct(r)
  {
    var ids := KeysBelow(menu, n);
    var listed := Filter(ids, (id: Id) => id in menu && Listed(menu[id], category));
    IncreasingDistinct(ids);
    FilterDistinct(ids, (id: Id) => id in menu && Listed(menu[id], category));
    ItemLeIsPreorder();
    assert TotalOrder(ByCategoryAndName(menu)) && Transitive(ByCategoryAndName(menu));
    SortBySorted(listed, ByCategoryAndName(menu));
    SortByMembers(listed, ByCategoryAndName(menu));
    SortByDistinct(listed, ByCategoryAndName(menu));
    SortBy(listed, ByCategoryAndName(menu))
  }

  /** GET /menu/categories: every category of any item, available or not, each once. */
  function Categories(menu: map<Id, MenuItem>, n: Id): (r: seq<string>)
    requires IdsBelow(menu, n)
    ensures Distinct(r)
    ensures forall c :: c in r <==> exists k :: k in menu && menu[k].category == c
  {
    var ids := KeysBelow(menu, n);
    var cats := seq(|ids|, i requires 0 <= i < |ids| => menu[ids[i]].category);
    assert forall c :: c in cats <==> exists k :: k in menu && menu[k].category == c by {
      forall c | c in cats ensures exists k :: k in menu && menu[k].category == c {
        var i :| 0 <= i < |cats| && cats[i] == c;
        assert ids[i] in menu && menu[ids[i]].category == c;
      }
      forall c | exists k :: k in menu && menu[k].category == c ensures c in cats {
        var k :| k in menu && menu[k].category == c;
        assert k in ids;
        var i :| 0 <= i < |ids| && ids[i] == k;
        assert cats[i] == c;
      }
    }
    Dedup(cats)
  }

  /** GET /menu/:id: the item (200), or 404. */
  function FindItem(menu: map<Id, MenuItem>, id: Id): (r: (int, Option<MenuItem>))
    ensures r.0 == 404 <==> id !in menu
    ensures r.0 == 200 <==> id in menu
    ensures r.0 == 200 ==> r.1 == Some(menu[id])
    ensures r.0 == 404 ==> r.1 == None
  {
    if id in menu then (200, Some(menu[id])) else (404, None)
  }

  /** The fields of a create or patch body. */
  datatype MenuFields = MenuFields(
    name: Option<string>,
    description: Option<string>,
    category: Option<string>,
    price: Option<Paise>,
    imageUrl: Option<string>,
    isAvailable: Option<bool>,
    preparationTime: Option<int>,
    tags: Option<seq<string>>)

  /** The schema's `required` on name, category and price: present, and for strings not empty. */
  predicate RequiredPresent(f: MenuFields) {
    f.name.Some? && f.name.value != "" && f.category.Some? && f.category.value != "" && f.price.Some?
  }

  /**
   * POST /menu: the body must carry name, category and price; otherwise the schema rejects it
   * and the handler answers 500. The new item takes the schema defaults for the rest (201).
   */
  method CreateMenuItem(store: Store, f: MenuFields) returns (code: int, id: Option<Id>)
    requires store.Valid()
    modifies store
    ensures store.Valid()
    ensures !RequiredPresent(f) ==> code == 500 && id == None && unchanged(store)
    ensures RequiredPresent(f) ==>
      && code == 201 && id == Some(old(store.nextId)) && store.nextId == old(store.nextId) + 1
      && store.menu == old(store.menu)[id.value := NewMenuItem(f.name.value, f.category.value, f.price.value,
           f.description, f.imageUrl, f.isAvailable, f.preparationTime, f.tags)]
      && store.tables == old(store.tables) && store.sessions == old(store.sessions)
      && store.orders == old(store.orders) && store.payments == old(store.payments) && store.events == old(store.events)
  {
    if !RequiredPresent(f) {
      return 500, None;
    }
    var mid := store.FreshId();
    store.menu := store.menu[mid := NewMenuItem(f.name.value, f.category.value, f.price.value,
                                                f.description, f.imageUrl, f.isAvailable, f.preparationTime, f.tags)];
    return 201, Some(mid);
  }

  /** A patch body's fields overwrite the item's; absent fields keep their value. */
  function ApplyMenuPatch(m: MenuItem, f: MenuFields): (r: MenuItem)
    ensures r.name == f.name.GetOr(m.name) && r.category == f.category.GetOr(m.category)
    ensures r.price == f.price.GetOr(m.price) && r.isAvailable == f.isAvailable.GetOr(m.isAvailable)
    ensures r.description == f.description.GetOr(m.description) && r.imageUrl == f.imageUrl.GetOr(m.imageUrl)
    ensures r.preparationTime == f.preparationTime.GetOr(m.preparationTime) && r.tags == f.tags.GetOr(m.tags)
  {
    MenuItem(f.name.GetOr(m.name), f.description.GetOr(m.description), f.category.GetOr(m.category),
             f.price.GetOr(m.price), f.imageUrl.GetOr(m.imageUrl), f.isAvailable.GetOr(m.isAvailable),
             f.preparationTime.GetOr(m.preparationTime), f.tags.GetOr(m.tags))
  }

  /** An empty patch changes nothing. */
  lemma EmptyPatchIsIdentity(m: MenuItem)
    ensures ApplyMenuPatch(m, MenuFields(None, None, None, None, None, None, None, None)) == m
  {
  }

  /** PATCH /menu/:id: 404 for an unknown item; otherwise the patch is applied (no schema checks on update). */
  method PatchMenuItem(store: Store, id: Id, f: MenuFields) returns (code: int)
    requires store.Valid()
    modifies store
    ensures store.Valid()
    ensures id !in old(store.menu) ==> code == 404 && unchanged(store)
    ensures id in old(store.menu) ==>
      && code == 200 && store.menu == old(store.menu)[id := ApplyMenuPatch(old(store.menu)[id], f)]
      && store.tables == old(store.tables) && store.sessions == old(store.sessions) && store.orders == old(store.orders)
      && store.payments == old(store.payments) && store.nextId == old(store.nextId) && store.events == old(store.events)
  {
    if id !in store.menu {
      return 404;
    }
    store.menu := store.menu[id := ApplyMenuPatch(store.menu[id], f)];
    return 200;
  }

  /**
   * The `required` validators that `save()` runs on a loaded item: a name and a category, both
   * non-empty. A patch can store an item that fails them, since updates skip validation.
   */
  predicate PassesValidation(m: MenuItem) {
    m.name != "" && m.category != ""
  }

  /**
   * PATCH /menu/:id/availability: 404 for an unknown item. The item is loaded, flipped and saved;
   * the save fails (500) and writes nothing when the stored item no longer passes validation.
   * Otherwise `isAvailable` flips and nothing else changes.
   */
  method ToggleAvailability(store: Store, id: Id) returns (code: int)
    requires store.Valid()
    modifies store
    ensures store.Valid()
    ensures id !in old(store.menu) ==> code == 404 && unchanged(store)
    ensures id in old(store.menu) && !PassesValidation(old(store.menu)[id]) ==> code == 500 && unchanged(store)
    ensures id in old(store.menu) && PassesValidation(old(store.menu)[id]) ==>
      && code == 200
      && store.menu == old(store.menu)[id := old(store.menu)[id].(isAvailable := !old(store.menu)[id].isAvailable)]
      && store.tables == old(store.tables) && store.sessions == old(store.sessions) && store.orders == old(store.orders)
      && store.payments == old(store.payments) && store.nextId == old(store.nextId) && store.events == old(store.events)
  {
    if id !in store.menu {
      return 404;
    }
    var item := store.menu[id];
    if !PassesValidation(item) {
      return 500;
    }
    store.menu := store.menu[id := item.(isAvailable := !item.isAvailable)];
    return 200;
  }

  /** Toggling an item twice restores the menu. */
  method ToggleTwice(store: Store, id: Id) returns (first: int, second: int)
    requires store.Valid()
    modifies store
    ensures store.Valid()
    ensures first == second
    ensures store.menu == old(store.menu) && store.events == old(store.events)
  {
    first := ToggleAvailability(store, id);
    second := ToggleAvailability(store, id);
  }

  /** DELETE /menu/:id: 404 for an unknown item; otherwise exactly that item is removed. */
  method DeleteMenuItem(store: Store, id: Id) returns (code: int)
    requires store.Valid()
    modifies store
    ensures store.Valid()
    ensures id !in old(store.menu) ==> code == 404 && unchanged(store)
    ensures id in old(store.menu) ==>
      && code == 200 && store.menu == old(store.menu) - {id}
      && store.tables == old(store.tables) && store.sessions == old(store.sessions) && store.orders == old(store.orders)
      && store.payments == old(store.payments) && store.nextId == old(store.nextId) && store.events == old(store.events)
  {
    if id !in store.menu {
      return 404;
    }
    store.menu := store.menu - {id};
    return 200;
  }
}
