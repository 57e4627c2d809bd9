/** The navigation sidebar: a fixed list of entries, each naming the roles that see it, and
    the entries shown to the logged-in user. */
module Sidebar {
  import opened Common

  datatype NavItem = NavItem(path: string, title: string, roles: seq<string>)

  const Dashboard: NavItem := NavItem("/dashboard", "Dashboard", ["admin", "cashier"])
  const Checkout: NavItem := NavItem("/pos", "POS Checkout", ["admin", "cashier"])
  const Products: NavItem := NavItem("/products", "Products", ["admin"])
  const Sales: NavItem := NavItem("/sales", "Sales", ["admin", "cashier"])
  const Inventory: NavItem := NavItem("/inventory", "Inventory", ["admin"])
  const Payments: NavItem := NavItem("/payments", "Payments", ["admin"])
  const Reports: NavItem := NavItem("/reports", "Reports", ["admin"])
  const Users: NavItem := NavItem("/users", "Users", ["admin"])

  const NavItems: seq<NavItem> := [Dashboard, Checkout, Products, Sales, Inventory, Payments, Reports, Users]

  /** An entry is shown to a user of the role (`user?.role`, None when nobody is logged in
      or the user has no role) when its roles include it. */
  predicate ShownTo(item: NavItem, role: Option<string>) {
    role.Some? && role.value in item.roles
  }

  /** The entries shown, in the list's order. */
  function VisibleItems(items: seq<NavItem>, role: Option<string>): (r: seq<NavItem>)
    ensures |r| <= |items|
    ensures forall k :: 0 <= k < |r| ==> ShownTo(r[k], role)
  {
    if items == [] then []
    else
      var rest := VisibleItems(items[..|items| - 1], role);
      if ShownTo(items[|items| - 1], role) then rest + [items[|items| - 1]] else rest
  }

  /** The entries shown are entries of the list, and every entry shown to the role is there. */
  lemma {:induction false} VisibleMembers(items: seq<NavItem>, role: Option<string>)
    ensures forall k :: 0 <= k < |VisibleItems(items, role)| ==> VisibleItems(items, role)[k] in items
    ensures forall k :: 0 <= k < |items| && ShownTo(items[k], role) ==> items[k] in VisibleItems(items, role)
  {
    if items != [] {
      var n := |items| - 1;
      var init := items[..n];
      VisibleMembers(init, role);
      var rest := VisibleItems(init, role);
      var tail := if ShownTo(items[n], role) then [items[n]] else [];
      assert VisibleItems(items, role) == rest + tail;
      forall k | 0 <= k < |rest + tail| ensures (rest + tail)[k] in items {
        if k < |rest| {
          assert (rest + tail)[k] == rest[k];
          var j :| 0 <= j < |init| && init[j] == rest[k];
          assert items[j] == init[j];
        } else {
          assert (rest + tail)[k] == items[n];
        }
      }
      forall k | 0 <= k < |items| && ShownTo(items[k], role) ensures items[k] in rest + tail {
        if k < n {
          assert items[k] == init[k];
          var j :| 0 <= j < |rest| && rest[j] == init[k];
          assert (rest + tail)[j] == rest[j];
        } else {
          assert (rest + tail)[|rest|] == items[n];
        }
      }
    }
  }

  /** Filtering keeps the order: the entries shown from two lists one after the other are
      those of the first followed by those of the second. */
  lemma {:induction false} VisibleKeepsOrder(a: seq<NavItem>, b: seq<NavItem>, role: Option<string>)
    ensures VisibleItems(a + b, role) == VisibleItems(a, role) + VisibleItems(b, role)
  {
    if b == [] {
      assert a + b == a;
    } else {
      var n := |b| - 1;
      assert (a + b)[..|a + b| - 1] == a + b[..n];
      assert (a + b)[|a + b| - 1] == b[n];
      VisibleKeepsOrder(a, b[..n], role);
    }
  }

  /** A list whose every entry is shown is shown whole. */
  lemma {:induction false} AllShown(items: seq<NavItem>, role: Option<string>)
    requires forall k :: 0 <= k < |items| ==> ShownTo(items[k], role)
    ensures VisibleItems(items, role) == items
  {
    if items != [] {
      var n := |items| - 1;
      var init := items[..n];
      assert forall k :: 0 <= k < |init| ==> init[k] == items[k];
      AllShown(init, role);
      assert ShownTo(items[n], role);
      calc {
        VisibleItems(items, role);
        VisibleItems(init, role) + [items[n]];
        init + [items[n]];
        items;
      }
    }
  }

  /** A list none of whose entries is shown shows nothing. */
  lemma {:induction false} NoneShown(items: seq<NavItem>, role: Option<string>)
    requires forall k :: 0 <= k < |items| ==> !ShownTo(items[k], role)
    ensures VisibleItems(items, role) == []
  {
    if items != [] {
      NoneShown(items[..|items| - 1], role);
    }
  }

  /** An admin sees all eight entries. */
  lemma AdminSeesAll()
    ensures VisibleItems(NavItems, Some("admin")) == NavItems
  {
    AllShown(NavItems, Some("admin"));
  }

  /** A cashier sees exactly the dashboard, the checkout and the sales. */
  lemma CashierSeesThree()
    ensures VisibleItems(NavItems, Some("cashier")) == [Dashboard, Checkout, Sales]
  {
    var role := Some("cashier");
    var shared, products, sales, adminOnly := [Dashboard, Checkout], [Products], [Sales], [Inventory, Payments, Reports, Users];
    assert NavItems == shared + products + sales + adminOnly;
    forall k | 0 <= k < |shared| ensures ShownTo(shared[k], role) {
      CashierShown(shared[k]);
    }
    forall k | 0 <= k < |adminOnly| ensures !ShownTo(adminOnly[k], role) {
      CashierHidden(adminOnly[k]);
    }
    CashierShown(Sales);
    CashierHidden(Products);
    VisibleKeepsOrder(shared + products + sales, adminOnly, role);
    VisibleKeepsOrder(shared + products, sales, role);
    VisibleKeepsOrder(shared, products, role);
    AllShown(shared, role);
    NoneShown(products, role);
    AllShown(sales, role);
    NoneShown(adminOnly, role);
  }

  lemma CashierShown(item: NavItem)
    requires item.roles == ["admin", "cashier"]
    ensures ShownTo(item, Some("cashier"))
  {
    assert item.roles[1] == "cashier";
  }

  lemma CashierHidden(item: NavItem)
    requires item.roles == ["admin"]
    ensures !ShownTo(item, Some("cashier"))
  {
    assert "cashier" != "admin" by {
      assert |"cashier"| != |"admin"|;
    }
  }

  /** Nobody logged in sees nothing. */
  lemma NobodySeesNothing(items: seq<NavItem>)
    ensures VisibleItems(items, None) == []
  {
    NoneShown(items, None);
  }
}
