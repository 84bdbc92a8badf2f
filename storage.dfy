/** The shop's browser storage and the handlers that change it.  `Store`
    holds what the page keeps under its storage keys (loyalty records by
    email, the cart, the accounts, the session, the pending cart item and the
    orders); each method is one handler or core function, changing the
    fields it names step by step as the page does. */
module Storage {
  import opened Wrappers
  import opened Text
  import opened Loyalty
  import opened Cart
  import opened Accounts

  /** A cart addition kept back until the visitor logs in or registers. */
  datatype PendingItem = PendingItem(id: string, name: string, price: nat, size: string, color: string)

  datatype Order = Order(
    orderId: string,
    userId: string,
    items: seq<CartLine>,
    total: nat,
    date: string,
    status: string)

  /** Why a checkout is refused, in the order the checks run. */
  datatype CheckoutError = IncompleteForms | InvalidCardNumber | NotLoggedIn

  /** Card numbers with fewer characters than this, once whitespace is
      removed, are refused. */
  const MinCardLength: nat := 13
  const OrderIdPrefix: string := "DAP-"
  const CompletedStatus: string := "completed"

  /** The card check of `completeCheckout`: at least 13 characters once the
      whitespace is removed, so the input itself is at least that long. */
  predicate CardNumberAccepted(cardInput: string)
    ensures CardNumberAccepted(cardInput) ==> |cardInput| >= MinCardLength
  {
    |StripSpaces(cardInput)| >= MinCardLength
  }

  /** A card number typed without whitespace is accepted exactly when it has
      at least 13 characters. */
  lemma PlainCardNumber(cardInput: string)
    requires NoSpaces(cardInput)
    ensures CardNumberAccepted(cardInput) <==> |cardInput| >= MinCardLength
  {
    StripSpacesKeepsPlain(cardInput);
  }

  /** A whitespace character typed anywhere in the card number (a space
      between groups of digits, say) does not change the verdict. */
  lemma {:induction false} CardSpacesIgnored(a: string, c: char, b: string)
    requires IsJsSpace(c)
    ensures CardNumberAccepted(a + [c] + b) <==> CardNumberAccepted(a + b)
  {
    StripSpacesAppend(a + [c], b);
    StripSpacesAppend(a, [c]);
    StripSpacesAppend(a, b);
    assert StripSpaces([c]) == [] by {
      assert [c][1..] == [];
    }
  }

  /** The cart after the pending item, if any, has been added with one unit:
      unchanged without one; otherwise the item's key is in the cart, which
      holds at most one more line, and the total grows by the price of the
      line the unit lands on. */
  function WithPending(items: seq<CartLine>, pending: Option<PendingItem>): (r: seq<CartLine>)
    ensures pending.None? ==> r == items
    ensures pending.Some? ==>
              var p := pending.value;
              && FindLine(r, p.id, p.size, p.color).Some?
              && |items| <= |r| <= |items| + 1
              && Total(r) == Total(items) + LandingPrice(items, p.id, p.price, p.size, p.color)
    ensures DistinctKeys(items) ==> DistinctKeys(r)
    ensures PositiveQuantities(items) ==> PositiveQuantities(r)
  {
    match pending
    case None => items
    case Some(p) =>
      TotalAddItem(items, p.id, p.name, p.price, p.size, p.color, 1);
      AddItem(items, p.id, p.name, p.price, p.size, p.color, 1)
  }

  class Store {
    var loyalty: Ledger
    var cart: seq<CartLine>
    var users: seq<User>
    var currentUser: Option<Session>
    var pending: Option<PendingItem>
    var orders: seq<Order>

    /** What every handler preserves: consistent loyalty records, a cart with
        one line per key and at least one unit per line, and accounts with
        distinct emails. */
    ghost predicate Valid()
      reads this
    {
      && LedgerConsistent(loyalty)
      && DistinctKeys(cart)
      && PositiveQuantities(cart)
      && UniqueEmails(users)
    }

    /** Storage as a first visit finds it: nothing stored. */
    constructor ()
      ensures Valid()
      ensures loyalty == map[] && cart == [] && users == [] && orders == []
      ensures currentUser == None && pending == None
    {
      loyalty := map[];
      cart := [];
      users := [];
      currentUser := None;
      pending := None;
      orders := [];
    }

    /** `addLoyaltyPoints(email, amount, reason)`; `randomPart` stands for the
        random suffix of the referral code if a record has to be created. */
    method AddLoyaltyPoints(email: string, amount: nat, reason: string, randomPart: string)
      returns (pointsToAdd: nat)
      requires Valid()
      modifies this`loyalty
      ensures Valid()
      ensures var before := Load(old(loyalty), email, randomPart);
              && pointsToAdd == PointsFor(amount, before.level)
              && loyalty == old(loyalty)[email := Earn(before, amount, reason)]
    {
      var record := Load(loyalty, email, randomPart);
      ghost var before := record;
      pointsToAdd := PointsFor(amount, record.level);
      record := record.(points := record.points + pointsToAdd,
                        totalEarned := record.totalEarned + pointsToAdd);
      record := record.(level := LevelOf(record.points));
      if reason == PurchaseReason {
        record := record.(purchases := record.purchases + 1);
      }
      assert record == Earn(before, amount, reason);
      loyalty := loyalty[email := record];
    }

    /** `redeemLoyaltyPoints(email, n)`: succeeds exactly when the balance
        covers `n`; only then is the record changed and stored. */
    method RedeemLoyaltyPoints(email: string, n: nat, randomPart: string) returns (ok: bool)
      requires Valid()
      modifies this`loyalty
      ensures Valid()
      ensures var before := Load(old(loyalty), email, randomPart);
              && (ok <==> n <= before.points)
              && loyalty == if ok then old(loyalty)[email := Redeem(before, n).value] else old(loyalty)
    {
      var record := Load(loyalty, email, randomPart);
      if record.points >= n {
        record := record.(points := record.points - n, totalSpent := record.totalSpent + n);
        loyalty := loyalty[email := record];
        ok := true;
      } else {
        ok := false;
      }
    }

    /** `addReferralBonus(email, referred)`: the referrer's record is updated
        and stored, then the referred customer's record is loaded, credited
        and stored. */
    method AddReferralBonus(email: string, referred: string,
                            randomReferrer: string, randomReferred: string) returns (ok: bool)
      requires Valid()
      modifies this`loyalty
      ensures Valid()
      ensures var r := Refer(old(loyalty), email, referred, randomReferrer, randomReferred);
              && (ok <==> r.Some?)
              && loyalty == r.GetOr(old(loyalty))
    {
      ghost var r := Refer(loyalty, email, referred, randomReferrer, randomReferred);
      var record := Load(loyalty, email, randomReferrer);
      if referred in record.referrals {
        return false;
      }
      ghost var credited := CreditReferrer(record, referred);
      record := record.(referrals := record.referrals + [referred]);
      record := record.(points := record.points + ReferrerBonus,
                        totalEarned := record.totalEarned + ReferrerBonus,
                        referralBonusPoints := record.referralBonusPoints + ReferrerBonus);
      record := record.(level := LevelOf(record.points));
      assert record == credited;
      loyalty := loyalty[email := record];

      var other := Load(loyalty, referred, randomReferred);
      ghost var bonus := CreditReferred(other);
      other := other.(points := other.points + ReferredBonus,
                      totalEarned := other.totalEarned + ReferredBonus);
      assert other == bonus;
      loyalty := loyalty[referred := other];
      assert loyalty == r.value;
      ok := true;
    }

    /** `addToCart`: grow the first line with the key in place, or push a new
        line. */
    method AddToCart(id: string, name: string, price: nat, size: string, color: string,
                     quantity: nat)
      requires Valid()
      requires quantity >= 1
      modifies this`cart
      ensures Valid()
      ensures cart == AddItem(old(cart), id, name, price, size, color, quantity)
      ensures Total(cart) == Total(old(cart)) + LandingPrice(old(cart), id, price, size, color) * quantity
    {
      TotalAddItem(cart, id, name, price, size, color, quantity);
      ghost var added := AddItem(cart, id, name, price, size, color, quantity);
      var found := FindLine(cart, id, size, color);
      if found.Some? {
        var k := found.value;
        cart := cart[k := cart[k].(quantity := cart[k].quantity + quantity)];
        assert cart == added;
      } else {
        cart := cart + [CartLine(id, name, price, size, color, quantity)];
        assert cart == added;
      }
    }

    /** `removeFromCart(index)`: `splice(index, 1)` on the lines. */
    method RemoveFromCart(index: int)
      requires Valid()
      modifies this`cart
      ensures Valid()
      ensures cart == SpliceOne(old(cart), index)
      ensures 0 <= index < |old(cart)| ==> Total(cart) + LineTotal(old(cart)[index]) == Total(old(cart))
    {
      if 0 <= index < |cart| {
        TotalRemoveAt(cart, index);
      }
      cart := SpliceOne(cart, index);
    }

    /** `updateCartItemQuantity(index, quantity)`; `ok` is false when the
        page would throw (a positive quantity for a missing line), in which
        case nothing is saved. */
    method UpdateCartItemQuantity(index: int, quantity: int) returns (ok: bool)
      requires Valid()
      modifies this`cart
      ensures Valid()
      ensures var r := UpdateQuantity(old(cart), index, quantity);
              && (ok <==> r.Some?)
              && cart == r.GetOr(old(cart))
    {
      if quantity > 0 {
        if 0 <= index < |cart| {
          cart := cart[index := cart[index].(quantity := quantity)];
          ok := true;
        } else {
          ok := false;
        }
      } else {
        cart := SpliceOne(cart, index);
        ok := true;
      }
    }

    /** The product modal's "add to cart" button once a size and colour are
        chosen: a visitor who is not logged in gets the item saved as the
        pending item (replacing any earlier one); a logged-in customer gets
        one unit added to the cart. */
    method RequestAddToCart(id: string, name: string, price: nat, size: string, color: string)
      requires Valid()
      modifies this`cart, this`pending
      ensures Valid()
      ensures currentUser.None? ==>
                pending == Some(PendingItem(id, name, price, size, color)) && cart == old(cart)
      ensures currentUser.Some? ==>
                pending == old(pending) && cart == AddItem(old(cart), id, name, price, size, color, 1)
    {
      if currentUser.None? {
        pending := Some(PendingItem(id, name, price, size, color));
      } else {
        AddToCart(id, name, price, size, color, 1);
      }
    }

    /** After a login or registration: the pending item, if any, is added
        with one unit and then cleared. */
    method ConsumePending()
      requires Valid()
      modifies this`cart, this`pending
      ensures Valid()
      ensures pending == None
      ensures cart == WithPending(old(cart), old(pending))
    {
      if pending.Some? {
        var p := pending.value;
        AddToCart(p.id, p.name, p.price, p.size, p.color, 1);
        pending := None;
      }
    }

    /** The login form: succeeds exactly when some account has both the email
        and the password given; then the session is set to the first such
        account and the pending item is moved into the cart. */
    method LogIn(email: string, password: string) returns (ok: bool)
      requires Valid()
      modifies this`currentUser, this`cart, this`pending
      ensures Valid()
      ensures ok <==> exists i :: 0 <= i < |users| && Matches(users[i], email, password)
      ensures ok ==> && currentUser == Some(SessionOf(users[FindByCredentials(users, email, password).value]))
                     && pending == None
                     && cart == WithPending(old(cart), old(pending))
      ensures !ok ==> currentUser == old(currentUser) && pending == old(pending) && cart == old(cart)
    {
      var found := FindByCredentials(users, email, password);
      if found.None? {
        return false;
      }
      currentUser := Some(SessionOf(users[found.value]));
      ConsumePending();
      ok := true;
    }

    /** The registration form: on success exactly one account is appended,
        the session is set to it and the pending item is moved into the
        cart; on failure nothing changes. */
    method Register(form: RegisterForm) returns (r: Result<User, RegisterError>)
      requires Valid()
      modifies this`users, this`currentUser, this`cart, this`pending
      ensures Valid()
      ensures r == NewAccount(old(users), form)
      ensures r.Success? ==> && users == old(users) + [r.value]
                             && currentUser == Some(SessionOf(r.value))
                             && pending == None
                             && cart == WithPending(old(cart), old(pending))
      ensures r.Failure? ==> && users == old(users) && currentUser == old(currentUser)
                             && pending == old(pending) && cart == old(cart)
    {
      r := NewAccount(users, form);
      if r.Failure? {
        return;
      }
      Enroll(r.value);
    }

    /** The success path of registration: store the account, open its
        session and move the pending item into the cart. */
    method Enroll(account: User)
      requires Valid()
      requires !EmailTaken(users, account.email)
      modifies this`users, this`currentUser, this`cart, this`pending
      ensures Valid()
      ensures users == old(users) + [account]
      ensures currentUser == Some(SessionOf(account))
      ensures pending == None
      ensures cart == WithPending(old(cart), old(pending))
    {
      AddUser(account);
      currentUser := Some(SessionOf(account));
      ConsumePending();
    }

    /** `users.push(account)` followed by saving the list. */
    method AddUser(account: User)
      requires Valid()
      requires !EmailTaken(users, account.email)
      modifies this`users
      ensures Valid()
      ensures users == old(users) + [account]
    {
      AppendKeepsUnique(users, account);
      users := users + [account];
    }

    /** `logout`: the session is removed. */
    method LogOut()
      requires Valid()
      modifies this`currentUser
      ensures Valid()
      ensures currentUser == None
    {
      currentUser := None;
    }

    /** `completeCheckout`.  `formsValid` is the browser's form validation,
        `timestamp` and `date` stand for the clock, `randomPart` for the
        referral-code suffix if a loyalty record has to be created.  Unless a
        check fails, one order carrying the cart and its total is appended,
        the customer earns points for the total as a purchase, and the cart
        is removed; the points earned are returned.  A failed check changes
        nothing. */
    method CompleteCheckout(formsValid: bool, cardInput: string, timestamp: string, date: string,
                            randomPart: string) returns (r: Result<nat, CheckoutError>)
      requires Valid()
      modifies this`orders, this`loyalty, this`cart
      ensures Valid()
      ensures r == Failure(IncompleteForms) <==> !formsValid
      ensures r == Failure(InvalidCardNumber) <==> formsValid && !CardNumberAccepted(cardInput)
      ensures r == Failure(NotLoggedIn) <==>
                formsValid && CardNumberAccepted(cardInput) && currentUser.None?
      ensures r.Failure? ==> orders == old(orders) && loyalty == old(loyalty) && cart == old(cart)
      ensures r.Success? ==>
                var email := currentUser.value.email;
                var total := Total(old(cart));
                var before := Load(old(loyalty), email, randomPart);
                && orders == old(orders) + [Order(OrderIdPrefix + timestamp, email, old(cart), total,
                                                  date, CompletedStatus)]
                && r.value == PointsFor(total, before.level)
                && loyalty == old(loyalty)[email := Earn(before, total, PurchaseReason)]
                && cart == []
    {
      if !formsValid {
        return Failure(IncompleteForms);
      }
      var cardNumber := StripSpaces(cardInput);
      if |cardNumber| < MinCardLength {
        return Failure(InvalidCardNumber);
      }
      if currentUser.None? {
        // reading the missing user's email throws before anything is stored
        return Failure(NotLoggedIn);
      }
      var user := currentUser.value;
      var total := Total(cart);
      var order := Order(OrderIdPrefix + timestamp, user.email, cart, total, date, CompletedStatus);
      orders := orders + [order];
      var pointsEarned := AddLoyaltyPoints(user.email, total, PurchaseReason, randomPart);
      cart := [];
      r := Success(pointsEarned);
    }
  }

  /** Two lines, 20 x 2 and 15 x 1, total 55. */
  lemma TwoLineTotal()
    ensures Total([CartLine("s1", "Sac", 20, "M", "noir", 2), CartLine("s2", "Pochette", 15, "S", "rouge", 1)]) == 55
  {
    var a := CartLine("s1", "Sac", 20, "M", "noir", 2);
    var b := CartLine("s2", "Pochette", 15, "S", "rouge", 1);
    assert [a, b][..1] == [a];
    assert [a][..0] == [];
  }

  /** A Bronze customer earns exactly the cart total: a 120 checkout brings
      120 points. */
  lemma BronzeCheckoutEarnsTotal(rec: LoyaltyRecord, total: nat)
    requires rec.level == Bronze
    ensures Earn(rec, total, PurchaseReason).points == rec.points + total
    ensures Earn(rec, total, PurchaseReason).purchases == rec.purchases + 1
  {
  }
}
