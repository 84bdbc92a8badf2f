/** The loyalty programme: one record per customer email, with a points
    balance, lifetime counters, a tier ("level") and the list of people the
    customer referred.  The functions here are the record transitions the
    shop applies when a customer buys, redeems points or refers someone; the
    `Storage` module applies them to the stored ledger. */
module Loyalty {
  import opened Wrappers

  /** The three tiers, lowest first. */
  datatype Level = Bronze | Argent | Or

  /** Position of a tier in the order Bronze < Argent < Or. */
  function Rank(l: Level): nat {
    match l
    case Bronze => 0
    case Argent => 1
    case Or => 2
  }

  /** The reason string that marks an earn as a purchase. */
  const PurchaseReason: string := "achat"
  /** Points credited to the customer who refers someone. */
  const ReferrerBonus: nat := 50
  /** Points credited to the customer who was referred. */
  const ReferredBonus: nat := 30

  datatype LoyaltyRecord = LoyaltyRecord(
    points: nat,
    totalEarned: nat,
    totalSpent: nat,
    level: Level,
    purchases: nat,
    referralCode: string,
    referrals: seq<string>,
    referralBonusPoints: nat)

  /** The stored records, keyed by customer email. */
  type Ledger = map<string, LoyaltyRecord>

  /** The tier a points balance qualifies for: Bronze below 500, Argent
      below 1000, Or from 1000 on. */
  function LevelOf(points: nat): (l: Level)
    ensures l == Bronze <==> points < 500
    ensures l == Or <==> 1000 <= points
  {
    if points < 500 then Bronze
    else if points < 1000 then Argent
    else Or
  }

  /** More points never mean a lower tier. */
  lemma LevelOfMonotone(p: nat, q: nat)
    ensures p <= q ==> Rank(LevelOf(p)) <= Rank(LevelOf(q))
  {
  }

  /** The earn multiplier of a tier, counted in halves (1, 1.5 and 2 are
      2, 3 and 4 halves): each tier earns half a point more per unit. */
  function MultiplierHalves(l: Level): (h: nat)
    ensures h == 2 + Rank(l)
  {
    match l
    case Bronze => 2
    case Argent => 3
    case Or => 4
  }

  /** `Math.round(amount * multiplier)` for a whole amount: the product
      rounded to the nearest integer, halves rounded up. */
  function PointsFor(amount: nat, l: Level): (r: nat)
    ensures 2 * r <= amount * MultiplierHalves(l) + 1 < 2 * r + 2
  {
    match l
    case Bronze => amount
    case Argent => (3 * amount + 1) / 2
    case Or => 2 * amount
  }

  /** A higher tier never earns fewer points for the same amount. */
  lemma PointsForMonotone(amount: nat, l: Level, l': Level)
    requires Rank(l) <= Rank(l')
    ensures PointsFor(amount, l) <= PointsFor(amount, l')
  {
  }

  /** The referral code of a new record: "DAP", the first three characters
      of the email upper-cased, then a random part supplied by the caller. */
  function ReferralCode(email: string, randomPart: string): (code: string)
    ensures |code| == 3 + (if |email| < 3 then |email| else 3) + |randomPart|
    ensures code[..3] == "DAP"
    ensures forall k :: 0 <= k < |code| - 3 - |randomPart| ==> code[3 + k] == UpperChar(email[k])
    ensures code[|code| - |randomPart|..] == randomPart
  {
    "DAP" + AsciiUpper(if |email| < 3 then email else email[..3]) + randomPart
  }

  /** A lower-case ASCII letter's capital; any other character unchanged. */
  function UpperChar(c: char): (u: char)
    ensures !('a' <= u <= 'z')
    ensures 'a' <= c <= 'z' ==> u as int == c as int - 32
    ensures !('a' <= c <= 'z') ==> u == c
  {
    if 'a' <= c <= 'z' then c - 'a' + 'A' else c
  }

  /** `toUpperCase()` restricted to the ASCII letters: each character is
      replaced by its capital. */
  function AsciiUpper(s: string): (r: string)
    ensures |r| == |s|
    ensures forall k :: 0 <= k < |s| ==> r[k] == UpperChar(s[k])
    ensures forall k :: 0 <= k < |s| ==> !('a' <= r[k] <= 'z')
  {
    if s == [] then []
    else [UpperChar(s[0])] + AsciiUpper(s[1..])
  }

  /** The record a customer without a stored one starts from. */
  function Fresh(code: string): (r: LoyaltyRecord)
    ensures Consistent(r)
  {
    LoyaltyRecord(0, 0, 0, Bronze, 0, code, [], 0)
  }

  /** `loadLoyaltyData`: the stored record, or a fresh one (not stored). */
  function Load(m: Ledger, email: string, randomPart: string): (r: LoyaltyRecord)
    ensures email in m ==> r == m[email]
    ensures email !in m ==>
              && r.points == 0 && r.totalEarned == 0 && r.totalSpent == 0
              && r.level == Bronze && r.purchases == 0
              && r.referralCode == ReferralCode(email, randomPart)
              && r.referrals == [] && r.referralBonusPoints == 0
    ensures LedgerConsistent(m) ==> Consistent(r)
  {
    if email in m then m[email] else Fresh(ReferralCode(email, randomPart))
  }

  /** A record saved under an email is the one loaded back for it. */
  lemma SaveThenLoad(m: Ledger, email: string, rec: LoyaltyRecord, randomPart: string)
    ensures Load(m[email := rec], email, randomPart) == rec
  {
  }

  predicate NoDuplicates(s: seq<string>) {
    forall i, j :: 0 <= i < j < |s| ==> s[i] != s[j]
  }

  /** What every stored record satisfies: the balance is what was earned
      minus what was spent, nobody is listed twice as referred, the referral
      bonus is 50 per person referred and part of the lifetime earnings,
      and the tier never exceeds the one
      that the lifetime earnings would give. */
  predicate Consistent(rec: LoyaltyRecord) {
    && rec.points == rec.totalEarned - rec.totalSpent
    && NoDuplicates(rec.referrals)
    && rec.referralBonusPoints == ReferrerBonus * |rec.referrals|
    && rec.referralBonusPoints <= rec.totalEarned
    && Rank(rec.level) <= Rank(LevelOf(rec.totalEarned))
  }

  predicate LedgerConsistent(m: Ledger) {
    forall e :: e in m ==> Consistent(m[e])
  }

  /** `addLoyaltyPoints` on a loaded record: the points for `amount` at the
      tier held before the earn go to the balance and the lifetime total, the
      tier is recomputed from the new balance, and a purchase is counted
      exactly when the reason is "achat". */
  function Earn(rec: LoyaltyRecord, amount: nat, reason: string): (r: LoyaltyRecord)
    ensures r.points - rec.points == r.totalEarned - rec.totalEarned == PointsFor(amount, rec.level)
    ensures r.level == LevelOf(r.points)
    ensures r.purchases == rec.purchases + 1 <==> reason == PurchaseReason
    ensures reason != PurchaseReason ==> r.purchases == rec.purchases
    ensures r.(points := rec.points, totalEarned := rec.totalEarned, level := rec.level,
               purchases := rec.purchases) == rec
    ensures Consistent(rec) ==> Consistent(r)
  {
    var added := PointsFor(amount, rec.level);
    var credited := rec.(points := rec.points + added, totalEarned := rec.totalEarned + added);
    var leveled := credited.(level := LevelOf(credited.points));
    LevelOfMonotone(leveled.points, leveled.totalEarned);
    if reason == PurchaseReason then leveled.(purchases := leveled.purchases + 1) else leveled
  }

  /** `redeemLoyaltyPoints` on a loaded record: refused when the balance does
      not cover `n`; otherwise `n` moves from the balance to the spent total
      and nothing else changes, the tier included. */
  function Redeem(rec: LoyaltyRecord, n: nat): (r: Option<LoyaltyRecord>)
    ensures r.None? <==> rec.points < n
    ensures r.Some? ==> r.value.points + n == rec.points
    ensures r.Some? ==> r.value.totalSpent == rec.totalSpent + n
    ensures r.Some? ==> r.value.(points := rec.points, totalSpent := rec.totalSpent) == rec
    ensures r.Some? && Consistent(rec) ==> Consistent(r.value)
  {
    if rec.points >= n then Some(rec.(points := rec.points - n, totalSpent := rec.totalSpent + n))
    else None
  }

  /** The referrer's side of `addReferralBonus`: `referred` is listed once
      more, 50 points go to the balance, the lifetime total and the referral
      bonus, and the tier is recomputed. */
  function CreditReferrer(rec: LoyaltyRecord, referred: string): (r: LoyaltyRecord)
    ensures r.referrals == rec.referrals + [referred]
    ensures r.points == rec.points + ReferrerBonus && r.totalEarned == rec.totalEarned + ReferrerBonus
    ensures r.referralBonusPoints == rec.referralBonusPoints + ReferrerBonus
    ensures r.level == LevelOf(r.points)
    ensures r.(referrals := rec.referrals, points := rec.points, totalEarned := rec.totalEarned,
               referralBonusPoints := rec.referralBonusPoints, level := rec.level) == rec
    ensures referred !in rec.referrals && Consistent(rec) ==> Consistent(r)
  {
    var listed := rec.(referrals := rec.referrals + [referred]);
    var credited := listed.(points := listed.points + ReferrerBonus,
                            totalEarned := listed.totalEarned + ReferrerBonus,
                            referralBonusPoints := listed.referralBonusPoints + ReferrerBonus);
    LevelOfMonotone(credited.points, credited.totalEarned);
    credited.(level := LevelOf(credited.points))
  }

  /** The referred customer's side of `addReferralBonus`: 30 points to the
      balance and the lifetime total; the tier is left as it was. */
  function CreditReferred(rec: LoyaltyRecord): (r: LoyaltyRecord)
    ensures r.points == rec.points + ReferredBonus && r.totalEarned == rec.totalEarned + ReferredBonus
    ensures r.(points := rec.points, totalEarned := rec.totalEarned) == rec
    ensures Consistent(rec) ==> Consistent(r)
  {
    LevelOfMonotone(rec.totalEarned, rec.totalEarned + ReferredBonus);
    rec.(points := rec.points + ReferredBonus, totalEarned := rec.totalEarned + ReferredBonus)
  }

  /** `addReferralBonus(email, referred)` on the whole ledger: refused when
      `referred` is already among `email`'s referrals; otherwise the
      referrer's record is credited and stored first, and the referred
      customer's record is then loaded from the updated ledger, credited and
      stored.  A customer who refers themself therefore gets both credits. */
  function Refer(m: Ledger, email: string, referred: string,
                 randomReferrer: string, randomReferred: string): (r: Option<Ledger>)
    ensures r.None? <==> referred in Load(m, email, randomReferrer).referrals
    ensures r.Some? ==> r.value.Keys == m.Keys + {email, referred}
    ensures r.Some? ==> forall e :: e in m && e != email && e != referred ==> r.value[e] == m[e]
    ensures r.Some? && email != referred ==>
              && r.value[email] == CreditReferrer(Load(m, email, randomReferrer), referred)
              && r.value[referred] == CreditReferred(Load(m, referred, randomReferred))
    ensures r.Some? && email == referred ==>
              r.value[email] == CreditReferred(CreditReferrer(Load(m, email, randomReferrer), referred))
    ensures r.Some? && LedgerConsistent(m) ==> LedgerConsistent(r.value)
  {
    var referrer := Load(m, email, randomReferrer);
    if referred in referrer.referrals then None
    else
      var afterReferrer := m[email := CreditReferrer(referrer, referred)];
      var other := Load(afterReferrer, referred, randomReferred);
      Some(afterReferrer[referred := CreditReferred(other)])
  }

  /** Earning and then redeeming exactly the points earned restores the
      balance; only the lifetime totals (and possibly the tier) remember it. */
  lemma EarnThenRedeem(rec: LoyaltyRecord, amount: nat, reason: string)
    ensures var earned := Earn(rec, amount, reason);
            var back := Redeem(earned, PointsFor(amount, rec.level));
            && back.Some?
            && back.value.points == rec.points
            && back.value.totalEarned - back.value.totalSpent == rec.totalEarned - rec.totalSpent
  {
  }

  /** A second referral of the same person by the same referrer is refused,
      whatever random parts are supplied. */
  lemma {:induction false} ReferTwiceRefused(m: Ledger, email: string, referred: string,
                                             ra: string, rb: string, ra': string, rb': string)
    requires Refer(m, email, referred, ra, rb).Some?
    ensures Refer(Refer(m, email, referred, ra, rb).value, email, referred, ra', rb').None?
  {
    var m' := Refer(m, email, referred, ra, rb).value;
    assert email in m';
    assert referred in m'[email].referrals;
  }

  /** A referral that goes through credits the referrer 50 and the referred
      customer 30 exactly once (80 in all when they are the same person). */
  lemma ReferCredits(m: Ledger, email: string, referred: string, ra: string, rb: string)
    requires Refer(m, email, referred, ra, rb).Some?
    ensures var m' := Refer(m, email, referred, ra, rb).value;
            if email == referred then
              m'[email].points == Load(m, email, ra).points + ReferrerBonus + ReferredBonus
            else
              && m'[email].points == Load(m, email, ra).points + ReferrerBonus
              && m'[referred].points == Load(m, referred, rb).points + ReferredBonus
  {
  }

  /** In a consistent record the balance never exceeds lifetime earnings. */
  lemma BalanceBounded(rec: LoyaltyRecord)
    requires Consistent(rec)
    ensures rec.points <= rec.totalEarned
  {
  }

  /** Redemption keeps the tier even when the balance falls below its
      threshold: 600 Argent points less 200 leave 400 points, still Argent. */
  lemma RedeemKeepsStaleLevel()
    ensures var rec := LoyaltyRecord(600, 600, 0, Argent, 0, "DAPABC123456", [], 0);
            var r := Redeem(rec, 200);
            && Consistent(rec)
            && r.Some? && r.value.points == 400
            && r.value.level == Argent && LevelOf(r.value.points) == Bronze
  {
  }

  /** The referred customer's tier is not recomputed: 480 Bronze points plus
      the 30-point bonus make 510 points that stay Bronze. */
  lemma ReferredKeepsStaleLevel()
    ensures var rec := LoyaltyRecord(480, 480, 0, Bronze, 0, "DAPABC123456", [], 0);
            var r := CreditReferred(rec);
            && r.points == 510 && r.level == Bronze && LevelOf(r.points) == Argent
  {
  }

  /** Nothing stops two different referrers from both referring the same
      person: each referrer's own list is the only guard, and the referred
      customer is credited twice. */
  lemma SameReferredTwice(m: Ledger, a: string, b: string, c: string,
                          r1: string, r2: string, r3: string, r4: string)
    requires a != b && a != c && b != c
    requires a !in m && b !in m
    ensures var m1 := Refer(m, a, c, r1, r2);
            && m1.Some?
            && var m2 := Refer(m1.value, b, c, r3, r4);
            && m2.Some?
            && c in m2.value[a].referrals && c in m2.value[b].referrals
            && m2.value[c].points == Load(m, c, r2).points + 2 * ReferredBonus
  {
    var m1 := Refer(m, a, c, r1, r2);
    assert m1.Some?;
    var l1 := m1.value;
    assert l1[a].referrals == [c];
    assert b !in l1;
    var m2 := Refer(l1, b, c, r3, r4);
    assert m2.Some?;
    assert m2.value[a] == l1[a];
    assert Load(l1, c, r4) == l1[c];
  }
}
