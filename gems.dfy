/** Gem colours and the colour-indexed count records of types.ts and
    services/gameUtils.ts (`GemColor`, `NON_GOLD_GEMS`, `ALL_GEMS`, the gem
    inventory and bonus maps, and the five-colour `Cost`). */
module Gems {
  import opened Text

  datatype Gem = White | Blue | Green | Red | Black | Gold

  /** `NON_GOLD_GEMS`, in declaration order. */
  const NonGoldGems: seq<Gem> := [White, Blue, Green, Red, Black]

  /** `ALL_GEMS`: the non-gold colours followed by gold. */
  const AllGems: seq<Gem> := NonGoldGems + [Gold]

  /** The string value of each `GemColor` member. */
  function Name(c: Gem): string {
    match c
    case White => "white"
    case Blue => "blue"
    case Green => "green"
    case Red => "red"
    case Black => "black"
    case Gold => "gold"
  }

  /** Position of a colour in `ALL_GEMS`. */
  function Rank(c: Gem): (r: nat)
    ensures r < |AllGems| && AllGems[r] == c
    ensures c != Gold ==> r < |NonGoldGems| && NonGoldGems[r] == c
  {
    match c
    case White => 0
    case Blue => 1
    case Green => 2
    case Red => 3
    case Black => 4
    case Gold => 5
  }

  /** The colour whose string value is `s`, if any. */
  function FromName(s: string): (r: Option<Gem>)
    ensures r.Some? ==> Name(r.value) == s
    ensures forall c :: Name(c) == s ==> r == Some(c)
  {
    if s == "white" then Some(White)
    else if s == "blue" then Some(Blue)
    else if s == "green" then Some(Green)
    else if s == "red" then Some(Red)
    else if s == "black" then Some(Black)
    else if s == "gold" then Some(Gold)
    else None
  }

  lemma NameInjective(a: Gem, b: Gem)
    ensures Name(a) == Name(b) ==> a == b
  {
    assert FromName(Name(a)) == Some(a);
  }

  /** A count per colour, gold included: the bank, a player's gems or bonuses. */
  datatype Tokens = Tokens(white: int, blue: int, green: int, red: int, black: int, gold: int) {

    function Get(c: Gem): int {
      match c
      case White => white
      case Blue => blue
      case Green => green
      case Red => red
      case Black => black
      case Gold => gold
    }

    function With(c: Gem, v: int): (t: Tokens)
      ensures t.Get(c) == v
      ensures forall d :: d != c ==> t.Get(d) == Get(d)
    {
      match c
      case White => this.(white := v)
      case Blue => this.(blue := v)
      case Green => this.(green := v)
      case Red => this.(red := v)
      case Black => this.(black := v)
      case Gold => this.(gold := v)
    }

    /** The count of `c` raised by `delta`. */
    function Bump(c: Gem, delta: int): (t: Tokens)
      ensures t.Get(c) == Get(c) + delta
      ensures forall d :: d != c ==> t.Get(d) == Get(d)
    {
      With(c, Get(c) + delta)
    }

    /** The sum over all six colours (`getGemCount`'s reduce over `ALL_GEMS`). */
    function Total(): int { white + blue + green + red + black + gold }

    function Plus(o: Tokens): (t: Tokens)
      ensures forall c :: t.Get(c) == Get(c) + o.Get(c)
    {
      Tokens(white + o.white, blue + o.blue, green + o.green, red + o.red, black + o.black, gold + o.gold)
    }

    function Minus(o: Tokens): (t: Tokens)
      ensures forall c :: t.Get(c) == Get(c) - o.Get(c)
    {
      Tokens(white - o.white, blue - o.blue, green - o.green, red - o.red, black - o.black, gold - o.gold)
    }

    predicate NonNegative() { forall c :: Get(c) >= 0 }
  }

  /** Two records that agree on every colour are equal. */
  lemma TokensEq(a: Tokens, b: Tokens)
    requires forall c :: a.Get(c) == b.Get(c)
    ensures a == b
  {
    assert a.Get(White) == b.Get(White) && a.Get(Blue) == b.Get(Blue) && a.Get(Green) == b.Get(Green);
    assert a.Get(Red) == b.Get(Red) && a.Get(Black) == b.Get(Black) && a.Get(Gold) == b.Get(Gold);
  }

  lemma BumpZero(t: Tokens, c: Gem)
    ensures t.Bump(c, 0) == t
  {
    TokensEq(t.Bump(c, 0), t);
  }

  lemma PlusBump(t: Tokens, u: Tokens, c: Gem, x: int)
    ensures t.Plus(u.Bump(c, x)) == t.Plus(u).Bump(c, x)
  {
    TokensEq(t.Plus(u.Bump(c, x)), t.Plus(u).Bump(c, x));
  }

  lemma MinusBump(t: Tokens, u: Tokens, c: Gem, x: int)
    ensures t.Minus(u.Bump(c, x)) == t.Minus(u).Bump(c, -x)
  {
    TokensEq(t.Minus(u.Bump(c, x)), t.Minus(u).Bump(c, -x));
  }

  /** `createEmptyGemInventory()` / `createEmptyBonusMap()` */
  const NoTokens := Tokens(0, 0, 0, 0, 0, 0)

  lemma BumpTotal(t: Tokens, c: Gem, delta: int)
    ensures t.Bump(c, delta).Total() == t.Total() + delta
  {
    var u := t.Bump(c, delta);
    match c
    case White => assert u.white == t.white + delta;
    case Blue => assert u.blue == t.blue + delta;
    case Green => assert u.green == t.green + delta;
    case Red => assert u.red == t.red + delta;
    case Black => assert u.black == t.black + delta;
    case Gold => assert u.gold == t.gold + delta;
  }

  /** A five-colour cost or noble requirement map; gold has no entry. */
  datatype Cost = Cost(white: int, blue: int, green: int, red: int, black: int) {
    function Get(c: Gem): int {
      match c
      case White => white
      case Blue => blue
      case Green => green
      case Red => red
      case Black => black
      case Gold => 0
    }

    /** `Object.values(cost)` summed. */
    function Total(): int { white + blue + green + red + black }
  }

  // ------------------------------------------------------- multiplicities

  /** How many entries of `g` are `c`. */
  function Count(g: seq<Gem>, c: Gem): (n: nat)
    ensures n <= |g|
  {
    if |g| == 0 then 0 else Count(g[..|g| - 1], c) + (if g[|g| - 1] == c then 1 else 0)
  }

  lemma {:induction false} CountPositive(g: seq<Gem>, c: Gem)
    ensures Count(g, c) > 0 <==> c in g
  {
    if |g| > 0 {
      CountPositive(g[..|g| - 1], c);
      assert g == g[..|g| - 1] + [g[|g| - 1]];
    }
  }

  lemma CountSnoc(g: seq<Gem>, x: Gem, c: Gem)
    ensures Count(g + [x], c) == Count(g, c) + (if x == c then 1 else 0)
  {
    assert (g + [x])[..|g|] == g;
  }

  /** The multiplicity of every colour in `g`. */
  function Multiplicity(g: seq<Gem>): (t: Tokens)
    ensures forall c :: t.Get(c) == Count(g, c)
  {
    Tokens(Count(g, White), Count(g, Blue), Count(g, Green), Count(g, Red), Count(g, Black), Count(g, Gold))
  }

  lemma MultiplicitySnoc(g: seq<Gem>, x: Gem)
    ensures Multiplicity(g + [x]) == Multiplicity(g).Bump(x, 1)
  {
    forall c ensures Multiplicity(g + [x]).Get(c) == Multiplicity(g).Bump(x, 1).Get(c) {
      CountSnoc(g, x, c);
    }
    TokensEq(Multiplicity(g + [x]), Multiplicity(g).Bump(x, 1));
  }

  /** The counts of all colours of a list add up to its length. */
  lemma {:induction false} MultiplicityTotal(g: seq<Gem>)
    ensures Multiplicity(g).Total() == |g|
  {
    if |g| > 0 {
      var init := g[..|g| - 1];
      var x := g[|g| - 1];
      MultiplicityTotal(init);
      assert g[..|g| - 1] == init;
      forall c ensures Count(g, c) == Count(init, c) + (if x == c then 1 else 0) { }
      assert Multiplicity(g) == Multiplicity(init).Bump(x, 1);
      BumpTotal(Multiplicity(init), x, 1);
    }
  }
}
