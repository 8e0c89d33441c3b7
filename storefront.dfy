/**
 * The shopping page of script.js as a state machine: the cart, the
 * products an administrator added, the registered users, the admin
 * form's flags and the carousel position. Rendering, `localStorage`,
 * dialogs and timers are left to the page; what they feed in (form
 * fields, the answer to `confirm`, the number of slides) are parameters.
 */
module Storefront {
  import opened Wrappers
  import opened Text
  import opened Sorting

  datatype Product = Product(name: string, price: real, imageUrl: string, rating: int)

  /** The six products every visitor sees (script.js:5-12). */
  const Base: seq<Product> := [
    Product("T-Shirt", 15.0, "images/1.webp", 4),
    Product("T-Shirt", 15.0, "images/2.png", 4),
    Product("T-Shirt", 15.0, "images/3.webp", 4),
    Product("Shirt", 20.0, "images/4.avif", 4),
    Product("Shirt", 20.0, "images/6.jpeg", 4),
    Product("Shirt", 20.0, "images/7.avif", 4)
  ]

  // ---------------------------------------------------------------- products

  /** The first product called `name`, as `Array.prototype.find` returns it. */
  function FindByName(ps: seq<Product>, name: string): (r: Option<nat>)
    ensures r.Some? ==> (r.value < |ps| && ps[r.value].name == name
      && forall j :: 0 <= j < r.value ==> ps[j].name != name)
    ensures r.None? <==> forall j :: 0 <= j < |ps| ==> ps[j].name != name
  {
    if ps == [] then None
    else if ps[0].name == name then Some(0)
    else match FindByName(ps[1..], name)
      case None => None
      case Some(j) => Some(j + 1)
  }

  /** The total of the prices, as the loop in `displayCartItems` adds them up. */
  function SumPrices(s: seq<Product>): real
  {
    if s == [] then 0.0 else SumPrices(s[..|s| - 1]) + s[|s| - 1].price
  }

  lemma {:induction false} SumPricesConcat(a: seq<Product>, b: seq<Product>)
    ensures SumPrices(a + b) == SumPrices(a) + SumPrices(b)
  {
    if b == [] {
      assert a + b == a;
    } else {
      SumPricesConcat(a, b[..|b| - 1]);
      assert (a + b)[..|a + b| - 1] == a + b[..|b| - 1];
    }
  }

  /** `array.splice(index, 1)`: a negative index counts from the end, one past the end removes nothing. */
  function SpliceStart(n: nat, index: int): (start: nat)
    ensures start <= n
  {
    if index < 0 then (if n + index < 0 then 0 else n + index) else if index < n then index else n
  }

  function SpliceOne<T>(s: seq<T>, index: int): (r: seq<T>)
    ensures var start := SpliceStart(|s|, index);
      if start < |s| then r == s[..start] + s[start + 1..] else r == s
  {
    var start := SpliceStart(|s|, index);
    if start < |s| then s[..start] + s[start + 1..] else s
  }

  /** Removing item `i` keeps the others, in order, and takes its price off the total. */
  lemma SpliceOneRemoves(s: seq<Product>, i: nat)
    requires i < |s|
    ensures multiset(SpliceOne(s, i)) + multiset{s[i]} == multiset(s)
    ensures |SpliceOne(s, i)| == |s| - 1
    ensures forall k :: 0 <= k < |s| - 1 ==> SpliceOne(s, i)[k] == if k < i then s[k] else s[k + 1]
    ensures SumPrices(SpliceOne(s, i)) == SumPrices(s) - s[i].price
  {
    assert SpliceOne(s, i) == s[..i] + s[i + 1..];
    SpliceOneKeeps(s, i);
    SpliceOneTotal(s, i);
  }

  lemma SpliceOneKeeps<T>(s: seq<T>, i: nat)
    requires i < |s|
    ensures multiset(s[..i] + s[i + 1..]) + multiset{s[i]} == multiset(s)
    ensures forall k :: 0 <= k < |s| - 1 ==> (s[..i] + s[i + 1..])[k] == if k < i then s[k] else s[k + 1]
  {
    SplitAround(s, i);
  }

  lemma SpliceOneTotal(s: seq<Product>, i: nat)
    requires i < |s|
    ensures SumPrices(s[..i] + s[i + 1..]) == SumPrices(s) - s[i].price
  {
    var front, x, back := s[..i], s[i], s[i + 1..];
    SplitAround(s, i);
    SumPricesConcat(front + [x], back);
    SumPricesConcat(front, [x]);
    SumPricesConcat(front, back);
    assert SumPrices([x]) == x.price by {
      assert [x][..0] == [];
    }
  }

  lemma SplitAround<T>(s: seq<T>, i: nat)
    requires i < |s|
    ensures s == (s[..i] + [s[i]]) + s[i + 1..]
  {
  }

  /** `p.name.toLowerCase().includes(query)`. */
  predicate Matches(p: Product, query: string)
  {
    Contains(Lower(p.name), query)
  }

  /** `s` keeps some of the items of `t`, in the order `t` has them. */
  predicate SubsequenceOf<T(==)>(s: seq<T>, t: seq<T>)
  {
    if s == [] then true
    else if t == [] then false
    else if s[0] == t[0] then SubsequenceOf(s[1..], t[1..])
    else SubsequenceOf(s, t[1..])
  }

  /** `ps.filter(p => p.name.toLowerCase().includes(query))`. */
  function Matching(ps: seq<Product>, query: string): (r: seq<Product>)
    ensures SubsequenceOf(r, ps)
    ensures forall k :: 0 <= k < |r| ==> Matches(r[k], query)
    ensures forall p :: multiset(r)[p] == if Matches(p, query) then multiset(ps)[p] else 0
  {
    if ps == [] then []
    else
      var rest := Matching(ps[1..], query);
      assert ps == [ps[0]] + ps[1..];
      if Matches(ps[0], query) then [ps[0]] + rest else rest
  }

  /** An empty query keeps every product. */
  lemma {:induction false} MatchingEmptyQuery(ps: seq<Product>)
    ensures Matching(ps, "") == ps
  {
    if ps != [] {
      EmptyIsEverywhere(Lower(ps[0].name));
      MatchingEmptyQuery(ps[1..]);
    }
  }

  function Price(p: Product): real
  {
    p.price
  }

  function NegatedPrice(p: Product): real
  {
    -p.price
  }

  /**
   * `sortProducts` (script.js:201-206): ascending by price for
   * `price-asc`, descending for `price-desc`, the list as it is otherwise.
   * JavaScript's sort is stable; the insertion sort is too.
   */
  function SortedProducts(ps: seq<Product>, sortValue: string): (r: seq<Product>)
    ensures multiset(r) == multiset(ps)
    ensures sortValue == "price-asc" ==> forall i, j :: 0 <= i < j < |r| ==> r[i].price <= r[j].price
    ensures sortValue == "price-desc" ==> forall i, j :: 0 <= i < j < |r| ==> r[i].price >= r[j].price
    ensures sortValue != "price-asc" && sortValue != "price-desc" ==> r == ps
  {
    if sortValue == "price-asc" then
      var r := SortBy(ps, Price);
      assert forall i, j :: 0 <= i < j < |r| ==> Price(r[i]) <= Price(r[j]);
      r
    else if sortValue == "price-desc" then
      var r := SortBy(ps, NegatedPrice);
      assert forall i, j :: 0 <= i < j < |r| ==> NegatedPrice(r[i]) <= NegatedPrice(r[j]);
      r
    else ps
  }

  // ------------------------------------------------------ card buttons

  /**
   * Lines 39-40 of `renderProducts` as written: the custom index behind
   * card `i` is worked out from the card's position alone, 6 subtracted,
   * whichever list is being rendered.
   */
  function CardTarget(i: nat): (r: Option<nat>)
    ensures r.Some? <==> i >= |Base|
    ensures r.Some? ==> r.value + |Base| == i
  {
    if i >= |Base| then Some(i - |Base|) else None
  }

  /**
   * Lines 199 and 206 render a sorted list through the same code: with a
   * custom product cheaper than every base product, sorting by ascending
   * price puts it on card 0, which gets no buttons, while card 6 shows a
   * base product and its Edit and Delete address custom product 0.
   */
  lemma {:induction false} SortedViewMisplacesButtons(p: Product)
    requires p.price < 15.0
    ensures var r := SortedProducts(Base + [p], "price-asc");
      |r| == |Base| + 1 && r[0] == p && CardTarget(0).None?
      && r[|Base|] != p && r[|Base|] in Base && CardTarget(|Base|) == Some(0)
  {
    BasePricesFrom15();
    var r := SortedProducts(Base + [p], "price-asc");
    CheapestSortsAlone(Base, p, r);
  }

  lemma BasePricesFrom15()
    ensures forall q :: q in Base ==> q.price >= 15.0
  {
  }

  /** Sorted by ascending price, a product cheaper than all of `b` comes first and only there. */
  lemma {:induction false} CheapestSortsAlone(b: seq<Product>, p: Product, r: seq<Product>)
    requires forall q :: q in b ==> q.price > p.price
    requires multiset(r) == multiset(b + [p])
    requires forall i, j :: 0 <= i < j < |r| ==> r[i].price <= r[j].price
    ensures |r| == |b| + 1 && r[0] == p
    ensures forall k :: 0 < k < |r| ==> r[k] != p && r[k] in b
  {
    assert p !in b;
    assert |r| == |b + [p]| by {
      assert |multiset(r)| == |multiset(b + [p])|;
    }
    assert multiset(b + [p])[p] == 1 by {
      assert multiset(b + [p]) == multiset(b) + multiset([p]);
    }
    assert p in multiset(r);
    var k0 :| 0 <= k0 < |r| && r[k0] == p;
    assert r[0].price <= p.price by {
      if k0 > 0 {
        assert r[0].price <= r[k0].price;
      }
    }
    assert r[0] !in b;
    assert r[0] in multiset(b + [p]);
    assert r[0] in b + [p];
    OnlyAtFront(r, p);
    forall k | 0 < k < |r|
      ensures r[k] in b
    {
      assert r[k] in multiset(b + [p]);
    }
  }

  /** A product counted once, standing first, stands nowhere else. */
  lemma {:induction false} OnlyAtFront(r: seq<Product>, p: Product)
    requires |r| > 0 && r[0] == p && multiset(r)[p] == 1
    ensures forall k :: 0 < k < |r| ==> r[k] != p
  {
    forall k | 0 < k < |r|
      ensures r[k] != p
    {
      assert r == r[..k] + r[k..];
      assert multiset(r) == multiset(r[..k]) + multiset(r[k..]);
      assert r[..k][0] == p;
      assert p in multiset(r[..k]);
      assert multiset(r[k..])[p] == 0;
      assert r[k..][0] == r[k];
      assert r[k] in multiset(r[k..]);
    }
  }

  /**
   * The intended addressing: a rendered view lists, card by card, the
   * position in `Base + custom` of the product it shows; a card has Edit
   * and Delete exactly when that product is custom, and they address it.
   */
  function ViewTarget(custom: seq<Product>, view: seq<nat>, i: nat): (r: Option<nat>)
    requires i < |view| && view[i] < |Base| + |custom|
    ensures r.Some? <==> view[i] >= |Base|
    ensures r.Some? ==> r.value < |custom| && custom[r.value] == (Base + custom)[view[i]]
    ensures r.None? ==> (Base + custom)[view[i]] in Base
  {
    CardTarget(view[i])
  }

  /** On the unsorted, unfiltered list the card's position is its place in `Base + custom`, and both agree. */
  lemma FullViewTargets(custom: seq<Product>, i: nat)
    requires i < |Base| + |custom|
    ensures ViewTarget(custom, seq(|Base| + |custom|, j => j), i) == CardTarget(i)
  {
  }

  // ---------------------------------------------------------------- users

  /** What `users[name]` reads on an object parsed from JSON. */
  datatype JsValue = Str(s: string) | Inherited | Undefined

  /** Names every plain object answers through `Object.prototype`. */
  const ObjectPrototype: set<string> := {
    "constructor", "__proto__", "hasOwnProperty", "isPrototypeOf", "propertyIsEnumerable",
    "toLocaleString", "toString", "valueOf",
    "__defineGetter__", "__defineSetter__", "__lookupGetter__", "__lookupSetter__"
  }

  function Lookup(users: map<string, string>, name: string): JsValue
  {
    if name in users then Str(users[name])
    else if name in ObjectPrototype then Inherited
    else Undefined
  }

  /** JavaScript truthiness: the empty string and `undefined` are false, a function is true. */
  predicate Truthy(v: JsValue)
  {
    v.Inherited? || (v.Str? && v.s != "")
  }

  /**
   * `users[name] === password` holds exactly for a stored user with that
   * password: inherited members are never strings.
   */
  lemma LoginMatchesStored(users: map<string, string>, name: string, password: string)
    ensures Lookup(users, name) == Str(password) <==> name in users && users[name] == password
  {
  }

  /**
   * Registration is refused for any name with a non-empty stored password
   * and for the names of `Object.prototype`; a name stored with the empty
   * password can be registered again.
   */
  lemma RegistrationRefusals(users: map<string, string>, name: string)
    ensures Truthy(Lookup(users, name)) <==>
      (name in users && users[name] != "") || (name !in users && name in ObjectPrototype)
  {
  }

  /** A user registered with a password can then log in with it. */
  lemma RegisterThenLogin(users: map<string, string>, name: string, password: string)
    ensures Lookup(users[name := password], name) == Str(password)
  {
  }

  // ---------------------------------------------------------------- the admin form

  /** The admin modal's visibility and the two edit flags. */
  datatype AdminForm = AdminForm(open: bool, isEditing: bool, editingIndex: int)

  /** `toggleAdminPanel` (script.js:210-216): flip the modal, forget any edit. */
  function Toggled(f: AdminForm): (g: AdminForm)
    ensures g.open == !f.open && !g.isEditing && g.editingIndex == -1
  {
    AdminForm(!f.open, false, -1)
  }

  /** `editProduct(index)` as written (script.js:251-253): set the flags, then toggle. */
  function Edited(f: AdminForm, index: int): AdminForm
  {
    Toggled(f.(isEditing := true, editingIndex := index))
  }

  /** The edit as evidently intended: open the form, then remember which product it edits. */
  function EditedIntended(f: AdminForm, index: int): AdminForm
  {
    Toggled(f).(isEditing := true, editingIndex := index)
  }

  /** Lines 229-233: replace the edited product, or append a new one. */
  function Stored(custom: seq<Product>, f: AdminForm, p: Product): (r: seq<Product>)
    requires f.isEditing ==> 0 <= f.editingIndex < |custom|
    ensures f.isEditing ==> (|r| == |custom| && r[f.editingIndex] == p
      && forall k :: 0 <= k < |custom| && k != f.editingIndex ==> r[k] == custom[k])
    ensures !f.isEditing ==> r == custom + [p]
  {
    if f.isEditing then custom[f.editingIndex := p] else custom + [p]
  }

  /**
   * As written, an edit never reaches the save: the form that opens after
   * `editProduct(i)` appends its product and leaves product `i` as it was.
   */
  lemma EditThenSaveAppends(custom: seq<Product>, f: AdminForm, i: nat, p: Product)
    requires i < |custom|
    ensures Stored(custom, Edited(f, i), p) == custom + [p]
    ensures Stored(custom, Edited(f, i), p)[i] == custom[i]
  {
  }

  /** With the intended order, saving the form replaces product `i` in place. */
  lemma EditIntendedThenSaveReplaces(custom: seq<Product>, f: AdminForm, i: nat, p: Product)
    requires i < |custom|
    ensures Stored(custom, EditedIntended(f, i), p) == custom[i := p]
  {
  }

  /** `!value` on a parsed number: `NaN` (written None) and zero are falsy. */
  predicate Present<N(==)>(v: Option<N>, zero: N)
  {
    v.Some? && v.value != zero
  }

  // ---------------------------------------------------------------- the carousel

  /** `currentSlide`: a slide number, or `NaN` once it was taken modulo zero slides. */
  datatype Slide = At(n: nat) | NotANumber

  /** `(currentSlide + 1) % slides.length`. */
  function Advance(s: Slide, count: nat): Slide
  {
    match s
    case NotANumber => NotANumber
    case At(n) => if count == 0 then NotANumber else At((n + 1) % count)
  }

  function AdvanceTimes(s: Slide, count: nat, k: nat): Slide
  {
    if k == 0 then s else Advance(AdvanceTimes(s, count, k - 1), count)
  }

  /** One step from slide `m` of `count` goes to the next slide, or back to the first. */
  lemma AdvanceStep(m: nat, count: nat)
    requires m < count
    ensures Advance(At(m), count) == At(if m + 1 < count then m + 1 else 0)
  {
  }

  /**
   * Over one round the carousel shows the slides after `n` in order and
   * then wraps around to the first.
   */
  lemma {:induction false} AdvanceTimesWraps(n: nat, count: nat, k: nat)
    requires n < count && k <= count
    ensures AdvanceTimes(At(n), count, k) == At(if n + k < count then n + k else n + k - count)
  {
    if k > 0 {
      AdvanceTimesWraps(n, count, k - 1);
      var m := if n + k - 1 < count then n + k - 1 else n + k - 1 - count;
      AdvanceStep(m, count);
    }
  }

  /** After `count` steps the carousel is back where it started. */
  lemma AdvanceFullCycle(n: nat, count: nat)
    requires n < count
    ensures AdvanceTimes(At(n), count, count) == At(n)
  {
    AdvanceTimesWraps(n, count, count);
  }

  /** Without slides the position becomes `NaN` and stays so. */
  lemma {:induction false} AdvanceWithoutSlides(s: Slide, k: nat)
    requires k > 0
    ensures AdvanceTimes(s, 0, k) == NotANumber
  {
    if k > 1 {
      AdvanceWithoutSlides(s, k - 1);
    }
  }

  // ---------------------------------------------------------------- the page

  /** The module-level state of script.js. */
  class Page {
    var cart: seq<Product>
    var customProducts: seq<Product>
    var users: map<string, string>
    var loggedInUser: Option<string>
    var adminOpen: bool
    var isEditing: bool
    var editingIndex: int
    var currentSlide: Slide

    function Form(): AdminForm
      reads this
    {
      AdminForm(adminOpen, isEditing, editingIndex)
    }

    /** An edit in progress names an existing custom product. */
    ghost predicate Valid()
      reads this
    {
      (isEditing ==> 0 <= editingIndex < |customProducts|) && (!isEditing ==> editingIndex == -1)
    }

    /** Lines 2-3 and 14-16: the saved cart and products, no edit, the first slide. */
    constructor (savedCart: seq<Product>, savedCustom: seq<Product>, savedUsers: map<string, string>,
                 savedUser: Option<string>)
      ensures Valid()
      ensures cart == savedCart && customProducts == savedCustom && users == savedUsers
      ensures loggedInUser == savedUser && Form() == AdminForm(false, false, -1) && currentSlide == At(0)
    {
      cart, customProducts, users, loggedInUser := savedCart, savedCustom, savedUsers, savedUser;
      adminOpen, isEditing, editingIndex := false, false, -1;
      currentSlide := At(0);
    }

    /** `getAllProducts()` (script.js:18-20). */
    function AllProducts(): seq<Product>
      reads this
    {
      Base + customProducts
    }

    /**
     * Lines 39-40 of `renderProducts`: card `i` of the full list is custom
     * exactly from position 6 on, and its Edit and Delete buttons address
     * the custom product shown on it.
     */
    function CustomIndex(i: nat): (r: Option<nat>)
      reads this
      requires i < |AllProducts()|
      ensures r.Some? <==> i >= |Base|
      ensures r.Some? ==> r.value < |customProducts| && customProducts[r.value] == AllProducts()[i]
      ensures r.None? ==> AllProducts()[i] == Base[i]
    {
      CardTarget(i)
    }

    /**
     * Line 43: Edit and Delete are shown on card `i` of the `rendered`
     * list exactly when a user called `admin` in any case is logged in and
     * the card's position is 6 or more, whatever product the card shows;
     * on the full list the buttons address the custom product shown.
     */
    function ShowsAdminControls(rendered: seq<Product>, i: nat): (shown: bool)
      reads this
      requires i < |rendered|
      ensures shown <==> loggedInUser.Some? && Lower(loggedInUser.value) == "admin" && i >= |Base|
      ensures shown && rendered == AllProducts() ==>
        i - |Base| < |customProducts| && customProducts[i - |Base|] == rendered[i]
    {
      loggedInUser.Some? && Lower(loggedInUser.value) == "admin" && CardTarget(i).Some?
    }

    /** `addToCart(name)` (script.js:62-70). */
    method AddToCart(name: string)
      requires Valid()
      modifies this
      ensures Valid()
      ensures var found := FindByName(old(AllProducts()), name);
        cart == if found.Some? then old(cart) + [old(AllProducts())[found.value]] else old(cart)
      ensures customProducts == old(customProducts) && users == old(users) && loggedInUser == old(loggedInUser)
      ensures Form() == old(Form()) && currentSlide == old(currentSlide)
    {
      var found := FindByName(AllProducts(), name);
      if found.Some? {
        cart := cart + [AllProducts()[found.value]];
      }
    }

    /** `removeFromCart(index)` (script.js:98-103). */
    method RemoveFromCart(index: int)
      requires Valid()
      modifies this
      ensures Valid()
      ensures cart == SpliceOne(old(cart), index)
      ensures customProducts == old(customProducts) && users == old(users) && loggedInUser == old(loggedInUser)
      ensures Form() == old(Form()) && currentSlide == old(currentSlide)
    {
      cart := SpliceOne(cart, index);
    }

    /** The total that `displayCartItems` shows (script.js:84-86, 95). */
    method CartTotal() returns (total: real)
      ensures total == SumPrices(cart)
    {
      total := 0.0;
      for i := 0 to |cart|
        invariant total == SumPrices(cart[..i])
      {
        assert cart[..i + 1][..i] == cart[..i];
        total := total + cart[i].price;
      }
      assert cart[..|cart|] == cart;
    }

    /** `submitOrder` (script.js:119-124): the order empties the cart. */
    method SubmitOrder()
      requires Valid()
      modifies this
      ensures Valid()
      ensures cart == []
      ensures customProducts == old(customProducts) && users == old(users) && loggedInUser == old(loggedInUser)
      ensures Form() == old(Form()) && currentSlide == old(currentSlide)
    {
      cart := [];
    }

    /** `registerUser` (script.js:157-169): a name is taken when its lookup is truthy. */
    method RegisterUser(username: string, password: string) returns (registered: bool)
      requires Valid()
      modifies this
      ensures Valid()
      ensures registered <==> !Truthy(Lookup(old(users), username))
      ensures users == if registered then old(users)[username := password] else old(users)
      ensures cart == old(cart) && customProducts == old(customProducts) && loggedInUser == old(loggedInUser)
      ensures Form() == old(Form()) && currentSlide == old(currentSlide)
    {
      if Truthy(Lookup(users, username)) {
        registered := false;
      } else {
        users := users[username := password];
        registered := true;
      }
    }

    /** `loginUser` (script.js:144-156): strict equality with the stored password. */
    method LoginUser(username: string, password: string) returns (ok: bool)
      requires Valid()
      modifies this
      ensures Valid()
      ensures ok <==> Lookup(users, username) == Str(password)
      ensures loggedInUser == if ok then Some(username) else old(loggedInUser)
      ensures cart == old(cart) && customProducts == old(customProducts) && users == old(users)
      ensures Form() == old(Form()) && currentSlide == old(currentSlide)
    {
      ok := Lookup(users, username) == Str(password);
      if ok {
        loggedInUser := Some(username);
      }
    }

    /** `logoutUser` (script.js:186-190). */
    method LogoutUser()
      requires Valid()
      modifies this
      ensures Valid()
      ensures loggedInUser == None
      ensures cart == old(cart) && customProducts == old(customProducts) && users == old(users)
      ensures Form() == old(Form()) && currentSlide == old(currentSlide)
    {
      loggedInUser := None;
    }

    /** `toggleAdminPanel` (script.js:210-216). */
    method ToggleAdminPanel()
      requires Valid()
      modifies this
      ensures Valid()
      ensures Form() == Toggled(old(Form()))
      ensures cart == old(cart) && customProducts == old(customProducts) && users == old(users)
      ensures loggedInUser == old(loggedInUser) && currentSlide == old(currentSlide)
    {
      adminOpen := !adminOpen;
      isEditing := false;
      editingIndex := -1;
    }

    /**
     * `addProduct` (script.js:218-238). A field that is falsy (an empty
     * name or image, a price or rating that is `NaN` or zero) stops it;
     * otherwise the product is stored as `Stored` says.
     */
    method AddProduct(name: string, price: Option<real>, imageUrl: string, rating: Option<int>)
      requires Valid()
      modifies this
      ensures Valid()
      ensures var accepted := name != "" && Present(price, 0.0) && imageUrl != "" && Present(rating, 0);
        customProducts == if accepted
          then Stored(old(customProducts), old(Form()), Product(name, price.value, imageUrl, rating.value))
          else old(customProducts)
      ensures cart == old(cart) && users == old(users) && loggedInUser == old(loggedInUser)
      ensures Form() == old(Form()) && currentSlide == old(currentSlide)
    {
      if name == "" || !Present(price, 0.0) || imageUrl == "" || !Present(rating, 0) {
        return;
      }
      var p := Product(name, price.value, imageUrl, rating.value);
      if isEditing {
        customProducts := customProducts[editingIndex := p];
      } else {
        customProducts := customProducts + [p];
      }
    }

    /**
     * `editProduct(index)` as written (script.js:245-254). Reading a
     * product that does not exist throws before any flag is set.
     */
    method EditProduct(index: int) returns (thrown: bool)
      requires Valid()
      modifies this
      ensures Valid()
      ensures thrown <==> !(0 <= index < |customProducts|)
      ensures Form() == if thrown then old(Form()) else Edited(old(Form()), index)
      ensures !thrown ==> !isEditing && editingIndex == -1
      ensures cart == old(cart) && customProducts == old(customProducts) && users == old(users)
      ensures loggedInUser == old(loggedInUser) && currentSlide == old(currentSlide)
    {
      if !(0 <= index < |customProducts|) {
        return true;
      }
      isEditing := true;
      editingIndex := index;
      adminOpen := !adminOpen;
      isEditing := false;
      editingIndex := -1;
      thrown := false;
    }

    /** `editProduct(index)` with the form toggled before the flags are set. */
    method EditProductIntended(index: int) returns (thrown: bool)
      requires Valid()
      modifies this
      ensures Valid()
      ensures thrown <==> !(0 <= index < |customProducts|)
      ensures Form() == if thrown then old(Form()) else EditedIntended(old(Form()), index)
      ensures !thrown ==> isEditing && editingIndex == index
      ensures cart == old(cart) && customProducts == old(customProducts) && users == old(users)
      ensures loggedInUser == old(loggedInUser) && currentSlide == old(currentSlide)
    {
      if !(0 <= index < |customProducts|) {
        return true;
      }
      adminOpen := !adminOpen;
      isEditing := true;
      editingIndex := index;
      thrown := false;
    }

    /** `deleteProduct(index)` (script.js:256-262), `confirmed` being the answer to the dialog. */
    method DeleteProduct(index: int, confirmed: bool)
      requires Valid() && !isEditing
      modifies this
      ensures Valid()
      ensures customProducts == if confirmed then SpliceOne(old(customProducts), index) else old(customProducts)
      ensures cart == old(cart) && users == old(users) && loggedInUser == old(loggedInUser)
      ensures Form() == old(Form()) && currentSlide == old(currentSlide)
    {
      if confirmed {
        customProducts := SpliceOne(customProducts, index);
      }
    }

    /** `filterProducts` (script.js:196-200): the products whose name contains the query, ignoring case. */
    function FilterProducts(search: string): seq<Product>
      reads this
    {
      Matching(AllProducts(), Lower(search))
    }

    /** `sortProducts` (script.js:201-207). */
    function SortProducts(sortValue: string): seq<Product>
      reads this
    {
      SortedProducts(AllProducts(), sortValue)
    }

    /** `nextSlide` (script.js:268-272), `slideCount` being the number of slides on the page. */
    method NextSlide(slideCount: nat)
      requires Valid()
      modifies this
      ensures Valid()
      ensures currentSlide == Advance(old(currentSlide), slideCount)
      ensures cart == old(cart) && customProducts == old(customProducts) && users == old(users)
      ensures loggedInUser == old(loggedInUser) && Form() == old(Form())
    {
      match currentSlide
      case NotANumber =>
      case At(n) =>
        currentSlide := if slideCount == 0 then NotANumber else At((n + 1) % slideCount);
    }
  }
}
