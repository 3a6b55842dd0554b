/** The menu-order, category and script tables of the console manager
    (storage/scripts/testing/nsatt_booter.py). Each table is a sequence of
    rows; `position` is the primary key of `menu_order`, so an UPDATE whose
    result would repeat a position fails and, the transaction being left
    uncommitted, changes nothing. */
module NsattBooter {
  import opened Strings

  datatype MenuRow = MenuRow(position: int, itemType: string, name: string)
  datatype Category = Category(id: int, name: string)
  datatype Script = Script(id: int, categoryId: int, name: string, command: string)

  /** No two menu rows share a position. */
  predicate Distinct(rows: seq<MenuRow>) {
    forall i, j :: 0 <= i < j < |rows| ==> rows[i].position != rows[j].position
  }

  /** Every row of `rows` is at a position in 1..n. */
  predicate Within(rows: seq<MenuRow>, n: int) {
    forall k :: 0 <= k < |rows| ==> 1 <= rows[k].position <= n
  }

  /** The menu is numbered 1..|rows| without gaps or repeats. */
  predicate Dense(rows: seq<MenuRow>) {
    Distinct(rows) && Within(rows, |rows|)
  }

  predicate HasPosition(rows: seq<MenuRow>, p: int) {
    exists k :: 0 <= k < |rows| && rows[k].position == p
  }

  // ---------------------------------------------------------------- add / remove

  /** `SELECT MAX(position)`: absent for an empty table. */
  function MaxPosition(rows: seq<MenuRow>): (m: Option<int>)
    ensures m.None? <==> rows == []
    ensures m.Some? ==> HasPosition(rows, m.value) && forall k :: 0 <= k < |rows| ==> rows[k].position <= m.value
    decreases |rows|
  {
    if rows == [] then None
    else
      var last := rows[|rows| - 1].position;
      match MaxPosition(rows[..|rows| - 1])
        case None => Some(last)
        case Some(m) => Some(if m < last then last else m)
  }

  /** add_menu_item's position: `(max_position or 0) + 1`, so 1 for an
      empty menu and one past the largest position otherwise. */
  function NextPosition(rows: seq<MenuRow>): (p: int)
    ensures rows == [] ==> p == 1
    ensures rows != [] ==> p == MaxPosition(rows).value + 1
    ensures forall k :: 0 <= k < |rows| ==> rows[k].position < p
  {
    match MaxPosition(rows)
      case None => 1
      case Some(m) => m + 1
  }

  /** remove_menu_item: `DELETE ... WHERE item_type=? AND name=?`. */
  function WithoutItem(rows: seq<MenuRow>, itemType: string, name: string): (r: seq<MenuRow>)
    ensures forall x :: x in r <==> x in rows && !(x.itemType == itemType && x.name == name)
    ensures |r| <= |rows|
    decreases |rows|
  {
    if rows == [] then []
    else
      var last := rows[|rows| - 1];
      WithoutItem(rows[..|rows| - 1], itemType, name) +
        (if last.itemType == itemType && last.name == name then [] else [last])
  }

  /** Deleting rows keeps the others in their order, so it keeps positions apart. */
  lemma {:induction false} WithoutItemDistinct(rows: seq<MenuRow>, itemType: string, name: string)
    requires Distinct(rows)
    ensures Distinct(WithoutItem(rows, itemType, name))
    decreases |rows|
  {
    if rows != [] {
      var init := rows[..|rows| - 1];
      var last := rows[|rows| - 1];
      assert Distinct(init);
      WithoutItemDistinct(init, itemType, name);
      var r0 := WithoutItem(init, itemType, name);
      if !(last.itemType == itemType && last.name == name) {
        var r := r0 + [last];
        forall i, j | 0 <= i < j < |r| ensures r[i].position != r[j].position {
          if j == |r| - 1 {
            assert r[i] in r0 && r[i] in init;
            var k :| 0 <= k < |init| && init[k] == r[i];
            assert rows[k] == r[i] && rows[|rows| - 1] == last;
          } else {
            assert r[i] == r0[i] && r[j] == r0[j];
          }
        }
      }
    }
  }

  /** The entries seeded into an empty menu, in order. */
  const DefaultFunctions: seq<string> := [
    "Create Category", "List Categories", "Add Script to Category", "List Scripts",
    "Generate Script via OpenAI", "Run Script", "Delete Script", "Delete Category",
    "Chat with OpenAI Assistant", "Reorder Menu", "Exit"]

  /** The seeded rows: default k at position k + 1, all functions. */
  function DefaultMenu(): (r: seq<MenuRow>)
    ensures |r| == 11
    ensures forall k :: 0 <= k < 11 ==> r[k] == MenuRow(k + 1, "function", DefaultFunctions[k])
  {
    seq(11, k requires 0 <= k < 11 => MenuRow(k + 1, "function", DefaultFunctions[k]))
  }

  /** The seeded menu is numbered 1..11. */
  lemma DefaultMenuDense()
    ensures Dense(DefaultMenu())
  {
  }

  // ---------------------------------------------------------------- reorder

  /** `UPDATE menu_order SET position=? WHERE position=?`: every row at
      `from` moves to `to`. */
  function SetPosition(rows: seq<MenuRow>, from: int, to: int): (r: seq<MenuRow>)
    ensures |r| == |rows|
    ensures forall k :: 0 <= k < |rows| ==>
      r[k] == rows[k].(position := if rows[k].position == from then to else rows[k].position)
  {
    seq(|rows|, k requires 0 <= k < |rows| =>
      rows[k].(position := if rows[k].position == from then to else rows[k].position))
  }

  /** The middle UPDATE of reorder_menu: positions in [new, old) move up
      one when the item moves up; positions in (old, new] other than -1 move
      down one when it moves down; nothing otherwise. */
  function ShiftPosition(p: int, oldP: int, newP: int): int {
    if newP < oldP && newP <= p < oldP then p + 1
    else if newP > oldP && oldP < p <= newP && p != -1 then p - 1
    else p
  }

  function Shift(rows: seq<MenuRow>, oldP: int, newP: int): (r: seq<MenuRow>)
    ensures |r| == |rows|
    ensures forall k :: 0 <= k < |rows| ==> r[k] == rows[k].(position := ShiftPosition(rows[k].position, oldP, newP))
  {
    seq(|rows|, k requires 0 <= k < |rows| => rows[k].(position := ShiftPosition(rows[k].position, oldP, newP)))
  }

  const UniqueFailure: string := "UNIQUE constraint failed: menu_order.position"

  /** One UPDATE under the primary-key constraint. */
  function Checked(rows: seq<MenuRow>): (r: Result<seq<MenuRow>>)
    ensures r.Ok? <==> Distinct(rows)
    ensures r.Ok? ==> r.value == rows
  {
    if Distinct(rows) then Ok(rows) else Err(UniqueFailure)
  }

  /** reorder_menu's three UPDATEs: park the item at -1, shift the rows in
      between, then put the parked row at the new position. */
  function Reordered(rows: seq<MenuRow>, oldP: int, newP: int): (r: Result<seq<MenuRow>>)
    ensures r.Ok? ==> Distinct(r.value) && |r.value| == |rows|
  {
    match Checked(SetPosition(rows, oldP, -1))
      case Err(e) => Err(e)
      case Ok(s1) =>
        match Checked(Shift(s1, oldP, newP))
          case Err(e) => Err(e)
          case Ok(s2) => Checked(SetPosition(s2, -1, newP))
  }

  /** Where a row at `p` ends when the item at `oldP` moves to `newP`. */
  function Moved(p: int, oldP: int, newP: int): int {
    if p == oldP then newP
    else if newP < oldP && newP <= p < oldP then p + 1
    else if newP > oldP && oldP < p <= newP then p - 1
    else p
  }

  /** Moving one item is a one-to-one renumbering. */
  lemma MovedInjective(p: int, q: int, oldP: int, newP: int)
    requires p != q
    ensures Moved(p, oldP, newP) != Moved(q, oldP, newP)
  {
  }

  predicate Positive(rows: seq<MenuRow>) {
    forall k :: 0 <= k < |rows| ==> rows[k].position >= 1
  }

  /** The renumbered rows, names and types untouched. */
  function MovedRows(rows: seq<MenuRow>, oldP: int, newP: int): (r: seq<MenuRow>)
    ensures |r| == |rows|
    ensures forall k :: 0 <= k < |rows| ==> r[k] == rows[k].(position := Moved(rows[k].position, oldP, newP))
  {
    seq(|rows|, k requires 0 <= k < |rows| => rows[k].(position := Moved(rows[k].position, oldP, newP)))
  }

  /** Renumbering distinct positions keeps them distinct. */
  lemma MovedRowsDistinct(rows: seq<MenuRow>, oldP: int, newP: int)
    requires Distinct(rows)
    ensures Distinct(MovedRows(rows, oldP, newP))
  {
    var r := MovedRows(rows, oldP, newP);
    forall i, j | 0 <= i < j < |r| ensures r[i].position != r[j].position {
      MovedInjective(rows[i].position, rows[j].position, oldP, newP);
    }
  }

  /** On a menu of positive, distinct positions with the item present and a
      positive target, the three UPDATEs all pass the key constraint and
      together move the item to `newP`, shifting the rows in between by one
      and leaving the others. */
  lemma ReorderedIsMove(rows: seq<MenuRow>, oldP: int, newP: int)
    requires Distinct(rows) && Positive(rows) && HasPosition(rows, oldP) && newP >= 1
    ensures Reordered(rows, oldP, newP) == Ok(MovedRows(rows, oldP, newP))
  {
    var s1 := SetPosition(rows, oldP, -1);
    forall i, j | 0 <= i < j < |s1| ensures s1[i].position != s1[j].position {
      assert rows[i].position != rows[j].position;
    }
    var s2 := Shift(s1, oldP, newP);
    forall k | 0 <= k < |s2|
      ensures s2[k].position == (if rows[k].position == oldP then -1 else Moved(rows[k].position, oldP, newP))
    {
    }
    forall i, j | 0 <= i < j < |s2| ensures s2[i].position != s2[j].position {
      MovedInjective(rows[i].position, rows[j].position, oldP, newP);
      var k :| 0 <= k < |rows| && rows[k].position == oldP;
    }
    var s3 := SetPosition(s2, -1, newP);
    forall k | 0 <= k < |s3| ensures s3[k] == MovedRows(rows, oldP, newP)[k] {
    }
    MovedRowsDistinct(rows, oldP, newP);
    assert s3 == MovedRows(rows, oldP, newP);
  }

  /** On a menu numbered 1..n, moving an item from and to positions in
      1..n keeps it numbered 1..n, puts the item at the new position, and
      keeps every other pair of items in their relative order. */
  lemma ReorderKeepsDense(rows: seq<MenuRow>, oldP: int, newP: int)
    requires Dense(rows) && HasPosition(rows, oldP) && 1 <= newP <= |rows|
    ensures Reordered(rows, oldP, newP).Ok?
    ensures var r := Reordered(rows, oldP, newP).value;
      Dense(r) &&
      (forall k :: 0 <= k < |rows| && rows[k].position == oldP ==> r[k] == rows[k].(position := newP)) &&
      (forall i, j :: (0 <= i < |rows| && 0 <= j < |rows| && rows[i].position != oldP && rows[j].position != oldP &&
                       rows[i].position < rows[j].position) ==> r[i].position < r[j].position) &&
      (forall k :: 0 <= k < |rows| ==> r[k].name == rows[k].name && r[k].itemType == rows[k].itemType)
  {
    ReorderedIsMove(rows, oldP, newP);
    MovedRowsDistinct(rows, oldP, newP);
    var k0 :| 0 <= k0 < |rows| && rows[k0].position == oldP;
    var r := MovedRows(rows, oldP, newP);
    assert Within(r, |rows|);
  }

  /** AS WRITTEN, a position that is not in the menu still shifts the rows
      in between: moving "position 4" to 1 in a three-item menu renumbers
      the items 2, 3, 4 and leaves position 1 empty. */
  lemma ReorderAbsentPositionLeavesGap()
    ensures var rows := [MenuRow(1, "function", "A"), MenuRow(2, "function", "B"), MenuRow(3, "function", "C")];
      Dense(rows) && !HasPosition(rows, 4) &&
      Reordered(rows, 4, 1) == Ok([MenuRow(2, "function", "A"), MenuRow(3, "function", "B"), MenuRow(4, "function", "C")]) &&
      !Dense(Reordered(rows, 4, 1).value)
  {
    var rows := [MenuRow(1, "function", "A"), MenuRow(2, "function", "B"), MenuRow(3, "function", "C")];
    var moved := [MenuRow(2, "function", "A"), MenuRow(3, "function", "B"), MenuRow(4, "function", "C")];
    assert Distinct(rows) && Distinct(moved) by {
      assert rows[0].position == 1 && rows[1].position == 2 && rows[2].position == 3;
      assert moved[0].position == 2 && moved[1].position == 3 && moved[2].position == 4;
    }
    assert SetPosition(rows, 4, -1) == rows;
    assert Checked(rows) == Ok(rows);
    assert Shift(rows, 4, 1) == moved;
    assert Checked(moved) == Ok(moved);
    assert SetPosition(moved, -1, 1) == moved;
    assert !Within(moved, 3) by { assert moved[2].position == 4; }
  }

  /** The reorder as intended: a position that is not in the menu, or a
      target outside 1..n, changes nothing. */
  function ReorderedChecked(rows: seq<MenuRow>, oldP: int, newP: int): (r: Result<seq<MenuRow>>)
    ensures !HasPosition(rows, oldP) || !(1 <= newP <= |rows|) ==> r == Ok(rows)
    ensures HasPosition(rows, oldP) && 1 <= newP <= |rows| ==> r == Reordered(rows, oldP, newP)
  {
    if HasPosition(rows, oldP) && 1 <= newP <= |rows| then Reordered(rows, oldP, newP) else Ok(rows)
  }

  /** Whatever the two numbers typed, the intended reorder keeps a menu
      numbered 1..n numbered 1..n. */
  lemma ReorderedCheckedKeepsDense(rows: seq<MenuRow>, oldP: int, newP: int)
    requires Dense(rows)
    ensures ReorderedChecked(rows, oldP, newP).Ok? && Dense(ReorderedChecked(rows, oldP, newP).value)
  {
    if HasPosition(rows, oldP) && 1 <= newP <= |rows| {
      ReorderKeepsDense(rows, oldP, newP);
    }
  }

  // ---------------------------------------------------------------- categories

  predicate HasCategoryName(cats: seq<Category>, name: string) {
    exists k :: 0 <= k < |cats| && cats[k].name == name
  }

  /** An INTEGER PRIMARY KEY row inserted without an id gets one past the
      largest id, 1 in an empty table. */
  function NextCategoryId(cats: seq<Category>): (id: int)
    ensures cats == [] ==> id == 1
    ensures forall k :: 0 <= k < |cats| ==> cats[k].id < id
    decreases |cats|
  {
    if cats == [] then 1
    else
      var rest := NextCategoryId(cats[..|cats| - 1]);
      var mine := cats[|cats| - 1].id + 1;
      if rest < mine then mine else rest
  }

  /** The category (its name) with the given id, if any. */
  function CategoryName(cats: seq<Category>, id: int): (r: Option<string>)
    ensures r.Some? <==> exists k :: 0 <= k < |cats| && cats[k].id == id
    ensures r.Some? ==> exists k :: 0 <= k < |cats| && cats[k] == Category(id, r.value)
    decreases |cats|
  {
    if cats == [] then None
    else if cats[|cats| - 1].id == id then Some(cats[|cats| - 1].name)
    else CategoryName(cats[..|cats| - 1], id)
  }

  function WithoutCategory(cats: seq<Category>, id: int): (r: seq<Category>)
    ensures forall x :: x in r <==> x in cats && x.id != id
    decreases |cats|
  {
    if cats == [] then []
    else WithoutCategory(cats[..|cats| - 1], id) + (if cats[|cats| - 1].id == id then [] else [cats[|cats| - 1]])
  }

  predicate HasScripts(scripts: seq<Script>, categoryId: int) {
    exists k :: 0 <= k < |scripts| && scripts[k].categoryId == categoryId
  }

  /** `DELETE FROM scripts WHERE category_id=?` */
  function WithoutScriptsOf(scripts: seq<Script>, categoryId: int): (r: seq<Script>)
    ensures forall x :: x in r <==> x in scripts && x.categoryId != categoryId
    decreases |scripts|
  {
    if scripts == [] then []
    else
      var last := scripts[|scripts| - 1];
      WithoutScriptsOf(scripts[..|scripts| - 1], categoryId) + (if last.categoryId == categoryId then [] else [last])
  }

  /** `UPDATE scripts SET category_id=? WHERE category_id=?` */
  function MoveScripts(scripts: seq<Script>, from: int, to: int): (r: seq<Script>)
    ensures |r| == |scripts|
    ensures forall k :: 0 <= k < |r| ==>
      r[k] == (if scripts[k].categoryId == from then scripts[k].(categoryId := to) else scripts[k])
  {
    seq(|scripts|, k requires 0 <= k < |scripts| =>
      if scripts[k].categoryId == from then scripts[k].(categoryId := to) else scripts[k])
  }

  /** How delete_category ended. */
  datatype Deletion = NotFound | InvalidChoice | BadTarget | Deleted(name: string)

  // ---------------------------------------------------------------- the store

  /** The three tables of the manager's database. */
  class MenuStore {
    var menu: seq<MenuRow>
    var categories: seq<Category>
    var scripts: seq<Script>

    ghost predicate Valid()
      reads this
    {
      Distinct(menu)
    }

    constructor ()
      ensures Valid() && menu == [] && categories == [] && scripts == []
    {
      menu := [];
      categories := [];
      scripts := [];
    }

    /** add_menu_item: the new row goes one past the largest position. */
    method AddMenuItem(itemType: string, name: string)
      requires Valid()
      modifies this
      ensures Valid()
      ensures menu == old(menu) + [MenuRow(NextPosition(old(menu)), itemType, name)]
      ensures categories == old(categories) && scripts == old(scripts)
    {
      var position := NextPosition(menu);
      menu := menu + [MenuRow(position, itemType, name)];
    }

    /** remove_menu_item: deletes exactly the rows of that type and name. */
    method RemoveMenuItem(itemType: string, name: string)
      requires Valid()
      modifies this
      ensures Valid()
      ensures menu == WithoutItem(old(menu), itemType, name)
      ensures categories == old(categories) && scripts == old(scripts)
    {
      WithoutItemDistinct(menu, itemType, name);
      menu := WithoutItem(menu, itemType, name);
    }

    /** add_category: `INSERT OR IGNORE` skips a name already present, but
        a menu entry is appended either way. */
    method AddCategory(name: string)
      requires Valid()
      modifies this
      ensures Valid()
      ensures HasCategoryName(old(categories), name) ==> categories == old(categories)
      ensures !HasCategoryName(old(categories), name) ==>
        categories == old(categories) + [Category(NextCategoryId(old(categories)), name)]
      ensures menu == old(menu) + [MenuRow(NextPosition(old(menu)), "category", name)]
      ensures scripts == old(scripts)
    {
      if !HasCategoryName(categories, name) {
        categories := categories + [Category(NextCategoryId(categories), name)];
      }
      AddMenuItem("category", name);
    }

    /** delete_category(id): `choice` is the answer to the delete-or-move
        question and `target` the category id typed for a move (None when
        it is not an integer, which raises). An unknown id, an invalid
        choice or a bad target changes nothing. */
    method DeleteCategory(id: int, choice: string, target: Option<int>) returns (outcome: Deletion)
      requires Valid()
      modifies this
      ensures Valid()
      ensures CategoryName(old(categories), id).None? ==> outcome == NotFound
      ensures outcome.Deleted? <==>
        CategoryName(old(categories), id).Some? &&
        (!HasScripts(old(scripts), id) || Lower(Strip(choice)) == "d" || (Lower(Strip(choice)) == "m" && target.Some?))
      ensures !outcome.Deleted? ==> menu == old(menu) && categories == old(categories) && scripts == old(scripts)
      ensures outcome.Deleted? ==>
        outcome.name == CategoryName(old(categories), id).value &&
        categories == WithoutCategory(old(categories), id) &&
        menu == WithoutItem(old(menu), "category", outcome.name) &&
        scripts == (if !HasScripts(old(scripts), id) then old(scripts)
                    else if Lower(Strip(choice)) == "d" then WithoutScriptsOf(old(scripts), id)
                    else MoveScripts(old(scripts), id, target.value))
    {
      var found := CategoryName(categories, id);
      if found.None? {
        return NotFound;
      }
      var name := found.value;
      if HasScripts(scripts, id) {
        var action := Lower(Strip(choice));
        if action == "d" {
          scripts := WithoutScriptsOf(scripts, id);
        } else if action == "m" {
          if target.None? {
            return BadTarget;
          }
          scripts := MoveScripts(scripts, id, target.value);
        } else {
          return InvalidChoice;
        }
      }
      categories := WithoutCategory(categories, id);
      RemoveMenuItem("category", name);
      outcome := Deleted(name);
    }

    /** reorder_menu with the two numbers typed: an empty menu is left as
        it is; otherwise the three UPDATEs apply as written (an absent
        position still shifts the rows in between), or nothing is committed
        when one of them breaks the key constraint. */
    method ReorderMenu(oldP: int, newP: int) returns (r: Result<()>)
      requires Valid()
      modifies this
      ensures Valid()
      ensures old(menu) == [] ==> r.Err? && menu == old(menu)
      ensures old(menu) != [] && Reordered(old(menu), oldP, newP).Ok? ==>
        r.Ok? && menu == Reordered(old(menu), oldP, newP).value
      ensures old(menu) != [] && Reordered(old(menu), oldP, newP).Err? ==> r.Err? && menu == old(menu)
      ensures Dense(old(menu)) && HasPosition(old(menu), oldP) && 1 <= newP <= |old(menu)| ==> Dense(menu)
      ensures categories == old(categories) && scripts == old(scripts)
    {
      if menu == [] {
        return Err("No menu items to reorder.");
      }
      if Dense(menu) && HasPosition(menu, oldP) && 1 <= newP <= |menu| {
        ReorderKeepsDense(menu, oldP, newP);
      }
      match Reordered(menu, oldP, newP) {
        case Err(e) =>
          r := Err(e);
        case Ok(rows) =>
          menu := rows;
          r := Ok(());
      }
    }

    /** main's seeding: an empty menu receives the eleven defaults at
        positions 1..11, one INSERT per default. */
    method SeedDefaults()
      requires Valid()
      modifies this
      ensures Valid()
      ensures old(menu) == [] ==> menu == DefaultMenu()
      ensures old(menu) != [] ==> menu == old(menu)
      ensures categories == old(categories) && scripts == old(scripts)
    {
      if |menu| != 0 {
        return;
      }
      var position := 1;
      for i := 0 to 11
        invariant position == i + 1
        invariant menu == DefaultMenu()[..i]
        invariant categories == old(categories) && scripts == old(scripts)
      {
        menu := menu + [MenuRow(position, "function", DefaultFunctions[i])];
        position := position + 1;
      }
      DefaultMenuDense();
    }
  }
}
