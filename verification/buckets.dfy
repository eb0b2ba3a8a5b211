/**
 * The six settlement buckets every marketplace adapter produces:
 * {taxable (과세), exempt (면세)} × {card (신용), cash receipt (현금), other (기타)}.
 */
module Tax {

  datatype Category = Taxable | Exempt

  datatype Payment = Card | Cash | Other

  datatype Buckets = Buckets(taxableCard: int, taxableCash: int, taxableOther: int,
                             exemptCard: int, exemptCash: int, exemptOther: int)
  {
    /** The bucket for one category and payment type. */
    function At(c: Category, p: Payment): int {
      match (c, p)
      case (Taxable, Card) => taxableCard
      case (Taxable, Cash) => taxableCash
      case (Taxable, Other) => taxableOther
      case (Exempt, Card) => exemptCard
      case (Exempt, Cash) => exemptCash
      case (Exempt, Other) => exemptOther
    }

    /** Bucket-wise sum: every bucket of the result is the sum of the two matching buckets. */
    function Plus(o: Buckets): (r: Buckets)
      ensures forall c, p :: r.At(c, p) == At(c, p) + o.At(c, p)
    {
      Buckets(taxableCard + o.taxableCard, taxableCash + o.taxableCash, taxableOther + o.taxableOther,
              exemptCard + o.exemptCard, exemptCash + o.exemptCash, exemptOther + o.exemptOther)
    }

    /** One category's three payment buckets added up. */
    function CategoryTotal(c: Category): int {
      At(c, Card) + At(c, Cash) + At(c, Other)
    }
  }

  const Zero := Buckets(0, 0, 0, 0, 0, 0)

  /** Amounts for one category only; the other category's buckets are 0. */
  function Side(c: Category, card: int, cash: int, other: int): (r: Buckets)
    ensures r.At(c, Card) == card && r.At(c, Cash) == cash && r.At(c, Other) == other
    ensures forall c', p :: c' != c ==> r.At(c', p) == 0
  {
    match c
    case Taxable => Buckets(card, cash, other, 0, 0, 0)
    case Exempt => Buckets(0, 0, 0, card, cash, other)
  }

  /** `v` in the bucket for `c` and `p`, 0 in every other bucket. */
  function Unit(c: Category, p: Payment, v: int): (r: Buckets)
    ensures forall c', p' :: r.At(c', p') == if c' == c && p' == p then v else 0
  {
    Side(c, if p == Card then v else 0, if p == Cash then v else 0, if p == Other then v else 0)
  }

  lemma PlusZero(a: Buckets)
    ensures a.Plus(Zero) == a && Zero.Plus(a) == a
  {
  }

  lemma PlusCommutes(a: Buckets, b: Buckets)
    ensures a.Plus(b) == b.Plus(a)
  {
  }

  lemma PlusAssociates(a: Buckets, b: Buckets, c: Buckets)
    ensures a.Plus(b).Plus(c) == a.Plus(b.Plus(c))
  {
  }

  lemma PlusSwap(a: Buckets, b: Buckets, c: Buckets)
    ensures a.Plus(b).Plus(c) == a.Plus(c).Plus(b)
  {
  }

  /** A bucket set whose every field is the sum of the matching fields of `a` and `b` is `a.Plus(b)`. */
  lemma PlusByFields(a: Buckets, b: Buckets, s: Buckets)
    requires s.taxableCard == a.taxableCard + b.taxableCard && s.taxableCash == a.taxableCash + b.taxableCash
    requires s.taxableOther == a.taxableOther + b.taxableOther && s.exemptCard == a.exemptCard + b.exemptCard
    requires s.exemptCash == a.exemptCash + b.exemptCash && s.exemptOther == a.exemptOther + b.exemptOther
    ensures s == a.Plus(b)
  {
  }

  /** Two bucket sets that agree bucket by bucket are equal. */
  lemma Extensional(a: Buckets, b: Buckets)
    requires forall c, p :: a.At(c, p) == b.At(c, p)
    ensures a == b
  {
    assert a.At(Taxable, Card) == b.At(Taxable, Card);
    assert a.At(Taxable, Cash) == b.At(Taxable, Cash);
    assert a.At(Taxable, Other) == b.At(Taxable, Other);
    assert a.At(Exempt, Card) == b.At(Exempt, Card);
    assert a.At(Exempt, Cash) == b.At(Exempt, Cash);
    assert a.At(Exempt, Other) == b.At(Exempt, Other);
  }
}
