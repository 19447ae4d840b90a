/** The product document: its stored fields, the two derived values read by
    the cart and the storefront (discounted price, stock status), the slug
    written by the pre-save hook and the rating average recomputed after a
    review is added. */
module ProductModel {
  import opened Common

  datatype Review = Review(user: UserId, name: string, rating: int, comment: string)

  datatype Product = Product(
    name: string,
    slug: string,
    price: real,
    discount: real,
    stock: int,
    lowStockThreshold: int,
    isActive: bool,
    reviews: seq<Review>,
    averageRating: real,
    numOfReviews: nat)

  predicate RatingsInRange(rs: seq<Review>) {
    forall i :: 0 <= i < |rs| ==> 1 <= rs[i].rating <= 5
  }

  /** The bounds the product schema enforces on validated writes: a price of
      at least 0, a discount percentage in 0..100, review ratings in 1..5.
      The stock bound (at least 0) is not among them, because the stock is
      changed by `$inc` updates that skip validation. */
  predicate SchemaBounds(p: Product) {
    p.price >= 0.0 && 0.0 <= p.discount <= 100.0 && RatingsInRange(p.reviews)
  }

  // ---------------------------------------------------------------------
  // Derived values

  /** The `discountedPrice` virtual: the price less `discount` percent. */
  function DiscountedPrice(p: Product): (r: real)
    ensures p.discount <= 0.0 ==> r == p.price
    ensures 0.0 <= p.discount ==> r == p.price * (100.0 - p.discount) / 100.0
    ensures p.price >= 0.0 && 0.0 <= p.discount <= 100.0 ==> 0.0 <= r <= p.price
    ensures p.discount == 100.0 ==> r == 0.0
  {
    if p.discount > 0.0 then p.price - (p.price * p.discount) / 100.0 else p.price
  }

  datatype StockStatus = OutOfStock | LowStock | InStock

  function StockStatusName(s: StockStatus): string {
    match s
    case OutOfStock => "out-of-stock"
    case LowStock => "low-stock"
    case InStock => "in-stock"
  }

  /** The `stockStatus` virtual. */
  function StockStatusOf(p: Product): (s: StockStatus)
    ensures s == OutOfStock <==> p.stock == 0
    ensures s == LowStock <==> p.stock != 0 && p.stock <= p.lowStockThreshold
    ensures s == InStock <==> p.stock != 0 && p.stock > p.lowStockThreshold
  {
    if p.stock == 0 then OutOfStock
    else if p.stock <= p.lowStockThreshold then LowStock
    else InStock
  }

  // ---------------------------------------------------------------------
  // Slug: lower-case the name, turn every character that is not an ASCII
  // letter or digit into '-', squeeze runs of '-' into one, then `trim`.
  // `String.prototype.trim` takes no argument, so the "-" passed to it is
  // ignored and only white space is trimmed.

  /** `toLowerCase`, for the ASCII letters. */
  function ToLowerChar(c: char): char {
    if 'A' <= c <= 'Z' then (c as int + 32) as char else c
  }

  function ToLower(s: string): (r: string)
    ensures |r| == |s|
    ensures forall i :: 0 <= i < |s| ==> r[i] == ToLowerChar(s[i])
  {
    seq(|s|, i requires 0 <= i < |s| => ToLowerChar(s[i]))
  }

  /** Membership in the class `[a-zA-Z0-9]`. */
  predicate IsAlnum(c: char) {
    'a' <= c <= 'z' || 'A' <= c <= 'Z' || '0' <= c <= '9'
  }

  /** `replace(/[^a-zA-Z0-9]/g, "-")` */
  function Dashify(s: string): (r: string)
    ensures |r| == |s|
    ensures forall i :: 0 <= i < |s| ==> r[i] == if IsAlnum(s[i]) then s[i] else '-'
  {
    seq(|s|, i requires 0 <= i < |s| => if IsAlnum(s[i]) then s[i] else '-')
  }

  /** The leading run of '-' removed. */
  function DropDashes(s: string): (r: string)
    ensures |r| <= |s| && r == s[|s| - |r|..]
    ensures r == [] || r[0] != '-'
    ensures forall i :: 0 <= i < |s| - |r| ==> s[i] == '-'
  {
    if |s| > 0 && s[0] == '-' then DropDashes(s[1..]) else s
  }

  predicate NoDoubleDash(s: string) {
    forall i :: 0 < i < |s| ==> s[i - 1] != '-' || s[i] != '-'
  }

  /** `replace(/-+/g, "-")`: every maximal run of '-' becomes one '-'. */
  function CollapseDashes(s: string): (r: string)
    decreases |s|
    ensures |r| <= |s|
    ensures |r| == 0 <==> |s| == 0
    ensures |s| > 0 ==> r[0] == s[0]
    ensures forall i :: 0 <= i < |r| ==> r[i] in s
    ensures NoDoubleDash(r)
  {
    if |s| == 0 then []
    else if s[0] == '-' then "-" + CollapseDashes(DropDashes(s[1..]))
    else [s[0]] + CollapseDashes(s[1..])
  }

  /** The leading dashes end at the first other character. */
  lemma {:induction false} DropDashesAround(x: string, c: char, y: string)
    requires c != '-'
    decreases |x|
    ensures DropDashes(x + [c] + y) == DropDashes(x) + [c] + y
  {
    if |x| == 0 {
      assert x + [c] + y == [c] + y;
    } else if x[0] == '-' {
      assert (x + [c] + y)[1..] == x[1..] + [c] + y;
      DropDashesAround(x[1..], c, y);
    }
  }

  lemma JoinAround(p: string, a: string, c: char, b: string)
    ensures p + (a + [c] + b) == (p + a) + [c] + b
  {
  }

  /** No run of dashes reaches across another character, so the collapse
      works on each side of it separately. */
  lemma {:induction false} CollapseAround(x: string, c: char, y: string)
    requires c != '-'
    decreases |x|
    ensures CollapseDashes(x + [c] + y) == CollapseDashes(x) + [c] + CollapseDashes(y)
  {
    var s := x + [c] + y;
    if |x| == 0 {
      assert s == [c] + y && s[1..] == y;
    } else if x[0] == '-' {
      var t := DropDashes(x[1..]);
      assert s[0] == '-' && s[1..] == x[1..] + [c] + y;
      DropDashesAround(x[1..], c, y);
      assert CollapseDashes(s) == "-" + CollapseDashes(t + [c] + y);
      CollapseAround(t, c, y);
      var a, b := CollapseDashes(t), CollapseDashes(y);
      assert CollapseDashes(x) == "-" + a;
      JoinAround("-", a, c, b);
    } else {
      assert s[0] == x[0] && s[1..] == x[1..] + [c] + y;
      assert CollapseDashes(s) == [x[0]] + CollapseDashes(x[1..] + [c] + y);
      CollapseAround(x[1..], c, y);
      var a, b := CollapseDashes(x[1..]), CollapseDashes(y);
      assert CollapseDashes(x) == [x[0]] + a;
      JoinAround([x[0]], a, c, b);
    }
  }

  /** A run of dashes becomes a single dash. */
  lemma CollapseDashRun(s: string)
    requires |s| > 0 && forall i :: 0 <= i < |s| ==> s[i] == '-'
    ensures CollapseDashes(s) == "-"
  {
  }

  /** The white space and line terminators `String.prototype.trim` removes. */
  predicate IsJsSpace(c: char) {
    c == ' ' || c == '\t' || c == '\n' || c == '\r' || c == '\U{000B}' || c == '\U{000C}'
    || c == '\U{00A0}' || c == '\U{1680}' || '\U{2000}' <= c <= '\U{200A}'
    || c == '\U{2028}' || c == '\U{2029}' || c == '\U{202F}' || c == '\U{205F}'
    || c == '\U{3000}' || c == '\U{FEFF}'
  }

  function TrimStart(s: string): string {
    if |s| > 0 && IsJsSpace(s[0]) then TrimStart(s[1..]) else s
  }

  function TrimEnd(s: string): string {
    if |s| > 0 && IsJsSpace(s[|s| - 1]) then TrimEnd(s[..|s| - 1]) else s
  }

  /** `trim(...)`, whatever its argument. */
  function Trim(s: string): string {
    TrimEnd(TrimStart(s))
  }

  lemma TrimWithoutSpace(s: string)
    requires forall i :: 0 <= i < |s| ==> !IsJsSpace(s[i])
    ensures Trim(s) == s
  {
  }

  predicate SlugChar(c: char) {
    'a' <= c <= 'z' || '0' <= c <= '9' || c == '-'
  }

  predicate IsSlug(s: string) {
    (forall i :: 0 <= i < |s| ==> SlugChar(s[i])) && NoDoubleDash(s)
  }

  /** The slug the pre-save hook derives from a product name. */
  function Slugify(name: string): (r: string)
    ensures r == CollapseDashes(Dashify(ToLower(name)))
    ensures IsSlug(r)
    ensures |r| <= |name|
    ensures |r| == 0 <==> |name| == 0
  {
    var collapsed := CollapseDashes(Dashify(ToLower(name)));
    assert forall i :: 0 <= i < |collapsed| ==> SlugChar(collapsed[i]);
    TrimWithoutSpace(collapsed);
    Trim(collapsed)
  }

  /** The characters other than '-', in order. */
  function NonDashes(s: string): string {
    if |s| == 0 then []
    else (if s[0] == '-' then [] else [s[0]]) + NonDashes(s[1..])
  }

  /** The ASCII letters and digits of a name, lower-cased, in order. */
  function LowerAlnums(s: string): string {
    if |s| == 0 then []
    else (if IsAlnum(s[0]) then [ToLowerChar(s[0])] else []) + LowerAlnums(s[1..])
  }

  lemma {:induction false} NonDashesDropDashes(s: string)
    ensures NonDashes(DropDashes(s)) == NonDashes(s)
  {
    if |s| > 0 && s[0] == '-' {
      NonDashesDropDashes(s[1..]);
    }
  }

  lemma {:induction false} NonDashesCollapse(s: string)
    decreases |s|
    ensures NonDashes(CollapseDashes(s)) == NonDashes(s)
  {
    if |s| == 0 {
    } else if s[0] == '-' {
      var t := DropDashes(s[1..]);
      NonDashesCollapse(t);
      NonDashesDropDashes(s[1..]);
      assert ("-" + CollapseDashes(t))[1..] == CollapseDashes(t);
    } else {
      NonDashesCollapse(s[1..]);
      assert ([s[0]] + CollapseDashes(s[1..]))[1..] == CollapseDashes(s[1..]);
    }
  }

  lemma {:induction false} NonDashesDashify(s: string)
    ensures NonDashes(Dashify(ToLower(s))) == LowerAlnums(s)
  {
    if |s| > 0 {
      NonDashesDashify(s[1..]);
      assert Dashify(ToLower(s))[1..] == Dashify(ToLower(s[1..]));
    }
  }

  /** The slug keeps exactly the letters and digits of the name, lower-cased
      and in order; the rest of it is dashes, never two in a row. */
  lemma SlugKeepsLettersAndDigits(name: string)
    ensures NonDashes(Slugify(name)) == LowerAlnums(name)
  {
    var collapsed := CollapseDashes(Dashify(ToLower(name)));
    TrimWithoutSpace(collapsed);
    NonDashesCollapse(Dashify(ToLower(name)));
    NonDashesDashify(name);
  }

  lemma {:induction false} CollapseSlug(s: string)
    requires NoDoubleDash(s)
    decreases |s|
    ensures CollapseDashes(s) == s
  {
    if |s| > 0 {
      var t := s[1..];
      assert NoDoubleDash(t) by {
        forall i | 0 < i < |t| ensures t[i - 1] != '-' || t[i] != '-' {
          assert t[i - 1] == s[i] && t[i] == s[i + 1];
        }
      }
      CollapseSlug(t);
      if s[0] == '-' {
        if |t| > 0 {
          assert t[0] == s[1];
        }
        assert DropDashes(t) == t;
        assert CollapseDashes(s) == "-" + t;
      } else {
        assert CollapseDashes(s) == [s[0]] + t;
      }
      assert s == [s[0]] + t;
    }
  }

  /** Slugifying a slug changes nothing. */
  lemma SlugifyIdempotent(name: string)
    ensures Slugify(Slugify(name)) == Slugify(name)
  {
    var s := Slugify(name);
    assert ToLower(s) == s;
    assert Dashify(s) == s;
    CollapseSlug(s);
    TrimWithoutSpace(s);
  }

  /** Squeezing runs of '-' keeps a final '-'. */
  lemma {:induction false} CollapseKeepsLastDash(s: string)
    requires |s| > 0 && s[|s| - 1] == '-'
    decreases |s|
    ensures var r := CollapseDashes(s); |r| > 0 && r[|r| - 1] == '-'
  {
    if s[0] == '-' {
      var t := DropDashes(s[1..]);
      if |t| > 0 {
        assert t[|t| - 1] == s[|s| - 1];
        CollapseKeepsLastDash(t);
      }
    } else {
      assert s[1..][|s| - 2] == s[|s| - 1];
      CollapseKeepsLastDash(s[1..]);
    }
  }

  /** `trim("-")` does not strip dashes: a name ending in anything but an
      ASCII letter or digit gets a slug ending in '-'. */
  lemma SlugKeepsTrailingDash(name: string)
    requires |name| > 0 && !IsAlnum(name[|name| - 1])
    ensures var r := Slugify(name); |r| > 0 && r[|r| - 1] == '-'
  {
    var d := Dashify(ToLower(name));
    assert d[|d| - 1] == '-';
    CollapseKeepsLastDash(d);
  }

  // ---------------------------------------------------------------------
  // Rating average

  function SumRatings(rs: seq<Review>): int {
    if |rs| == 0 then 0 else rs[0].rating + SumRatings(rs[1..])
  }

  /** `Math.round((total / n) * 10)`: the number of tenths nearest to
      total / n, halves rounded up. */
  function RoundedTenths(total: int, n: int): (k: int)
    requires n > 0
    ensures 2 * n * k - n <= 20 * total < 2 * n * k + n
  {
    var k := (20 * total + n) / (2 * n);
    var m := (20 * total + n) % (2 * n);
    assert 20 * total + n == 2 * n * k + m && 0 <= m < 2 * n;
    k
  }

  lemma {:induction false} SumRatingsBounds(rs: seq<Review>)
    requires RatingsInRange(rs)
    ensures |rs| <= SumRatings(rs) <= 5 * |rs|
  {
    if |rs| > 0 {
      assert RatingsInRange(rs[1..]);
      SumRatingsBounds(rs[1..]);
    }
  }

  /** Ratings in 1..5 round to between 1.0 and 5.0. */
  lemma TenthsBounds(t: int, n: int)
    requires n > 0 && n <= t <= 5 * n
    ensures 10 <= RoundedTenths(t, n) <= 50
  {
    var k := RoundedTenths(t, n);
    if k > 50 { MulLeq(n, 51, k); }
    if k < 10 { MulLeq(n, k, 9); }
  }

  /** The stored average: 0 with no reviews, else the mean rating rounded to
      one decimal. */
  function AverageRating(rs: seq<Review>): (avg: real)
    ensures |rs| == 0 ==> avg == 0.0
    ensures |rs| > 0 && RatingsInRange(rs) ==> 1.0 <= avg <= 5.0
  {
    if |rs| == 0 then 0.0
    else
      var k := RoundedTenths(SumRatings(rs), |rs|);
      if RatingsInRange(rs) then
        SumRatingsBounds(rs);
        TenthsBounds(SumRatings(rs), |rs|);
        k as real / 10.0
      else k as real / 10.0
  }

  lemma {:induction false} SumRatingsConstant(rs: seq<Review>, v: int)
    requires forall i :: 0 <= i < |rs| ==> rs[i].rating == v
    ensures SumRatings(rs) == |rs| * v
  {
    if |rs| > 0 {
      SumRatingsConstant(rs[1..], v);
    }
  }

  /** When every review gives the same rating, that rating is the average. */
  lemma AverageOfEqualRatings(rs: seq<Review>, v: int)
    requires |rs| > 0
    requires forall i :: 0 <= i < |rs| ==> rs[i].rating == v
    ensures AverageRating(rs) == v as real
  {
    var n := |rs|;
    SumRatingsConstant(rs, v);
    var k := RoundedTenths(n * v, n);
    assert 2 * n * k - n <= 20 * (n * v) < 2 * n * k + n;
    assert n * (2 * k - 1 - 20 * v) <= 0 by {
      assert n * (2 * k - 1 - 20 * v) == 2 * n * k - n - 20 * (n * v);
    }
    assert n * (20 * v - 2 * k - 1) < 0 by {
      assert n * (20 * v - 2 * k - 1) == 20 * (n * v) - 2 * n * k - n;
    }
    if 2 * k - 1 - 20 * v > 0 { MulLeq(n, 1, 2 * k - 1 - 20 * v); }
    if 20 * v - 2 * k - 1 >= 0 { MulLeq(n, 0, 20 * v - 2 * k - 1); }
    assert k == 10 * v;
  }

  // ---------------------------------------------------------------------
  // One review per user

  /** `reviews.find(r => r.user == user)` found something. */
  function ReviewedBy(rs: seq<Review>, user: UserId): (found: bool)
    ensures found <==> exists i :: 0 <= i < |rs| && rs[i].user == user
  {
    if |rs| == 0 then false
    else if rs[0].user == user then true
    else
      var found := ReviewedBy(rs[1..], user);
      assert found ==> exists i :: 1 <= i < |rs| && rs[i].user == user by {
        if found {
          var k :| 0 <= k < |rs[1..]| && rs[1..][k].user == user;
          assert rs[k + 1].user == user;
        }
      }
      found
  }

  /** How many reviews a user has written. */
  function ReviewsBy(rs: seq<Review>, user: UserId): nat {
    if |rs| == 0 then 0
    else (if rs[0].user == user then 1 else 0) + ReviewsBy(rs[1..], user)
  }

  ghost predicate OneReviewPerUser(rs: seq<Review>) {
    forall u :: ReviewsBy(rs, u) <= 1
  }

  lemma {:induction false} ReviewsByAppend(rs: seq<Review>, r: Review, user: UserId)
    ensures ReviewsBy(rs + [r], user) == ReviewsBy(rs, user) + (if r.user == user then 1 else 0)
  {
    if |rs| > 0 {
      assert (rs + [r])[1..] == rs[1..] + [r];
      ReviewsByAppend(rs[1..], r, user);
    } else {
      assert rs + [r] == [r];
    }
  }

  lemma {:induction false} ReviewsByZero(rs: seq<Review>, user: UserId)
    ensures ReviewsBy(rs, user) == 0 <==> !ReviewedBy(rs, user)
  {
    if |rs| > 0 {
      ReviewsByZero(rs[1..], user);
    }
  }

  /** Appending a review by a user with no review yet keeps one review per
      user, and that user now has exactly one. */
  lemma AppendNewReviewer(rs: seq<Review>, r: Review)
    requires OneReviewPerUser(rs) && !ReviewedBy(rs, r.user)
    ensures OneReviewPerUser(rs + [r])
    ensures ReviewsBy(rs + [r], r.user) == 1
  {
    ReviewsByZero(rs, r.user);
    forall u ensures ReviewsBy(rs + [r], u) <= 1 {
      ReviewsByAppend(rs, r, u);
    }
    ReviewsByAppend(rs, r, r.user);
  }

  /** The review validator: an integer rating in 1..5 and a non-empty comment
      of at most 1000 characters. */
  predicate ReviewInputValid(rating: int, comment: string) {
    1 <= rating <= 5 && comment != "" && |comment| <= 1000
  }

  // ---------------------------------------------------------------------
  // The Mongoose document

  /** A product document loaded for update: its fields and whether `name`
      has been assigned a new value since it was loaded. */
  class ProductDoc {
    var name: string
    var slug: string
    var price: real
    var discount: real
    var stock: int
    var lowStockThreshold: int
    var isActive: bool
    var reviews: seq<Review>
    var averageRating: real
    var numOfReviews: nat
    var nameModified: bool

    function Value(): Product
      reads this
    {
      Product(name, slug, price, discount, stock, lowStockThreshold, isActive,
              reviews, averageRating, numOfReviews)
    }

    /** `Product.findById`: a document with nothing modified. */
    constructor Load(p: Product)
      ensures Value() == p && !nameModified
    {
      name, slug, price, discount := p.name, p.slug, p.price, p.discount;
      stock, lowStockThreshold, isActive := p.stock, p.lowStockThreshold, p.isActive;
      reviews, averageRating, numOfReviews := p.reviews, p.averageRating, p.numOfReviews;
      nameModified := false;
    }

    /** Assigning `name`: the schema's `trim` setter stores the trimmed
        value, and a value equal to the current one marks nothing. */
    method SetName(n: string)
      modifies this
      ensures Value() == old(Value()).(name := Trim(n))
      ensures nameModified == (old(nameModified) || Trim(n) != old(name))
    {
      var t := Trim(n);
      if t != name {
        name := t;
        nameModified := true;
      }
    }

    /** `calculateAverageRating`. */
    method CalculateAverageRating()
      modifies this
      ensures Value() == old(Value()).(averageRating := AverageRating(reviews), numOfReviews := |reviews|)
      ensures nameModified == old(nameModified)
    {
      if |reviews| == 0 {
        averageRating := 0.0;
        numOfReviews := 0;
      } else {
        averageRating := AverageRating(reviews);
        numOfReviews := |reviews|;
      }
    }

    /** `save()` with the slug hook: the slug is recomputed only when the name
        was modified. */
    method Save()
      modifies this
      ensures Value() == old(Value()).(slug := if old(nameModified) then Slugify(name) else old(slug))
      ensures !nameModified
    {
      if nameModified {
        slug := Slugify(name);
      }
      nameModified := false;
    }
  }
}
