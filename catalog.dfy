/** The price catalog: category -> item -> entry, where an entry is either a
    single price or a map from variant name to price. */
module Catalog {
  import opened Wrappers
  import opened Dicts
  import opened Json

  datatype ItemEntry = Price(amount: int) | Variants(prices: Dict<int>)

  /** The `categories` object of a loaded price file. */
  type PriceData = Dict<Dict<ItemEntry>>

  /** The entry as the JSON value it was loaded from. */
  function ToValue(e: ItemEntry): (v: Value)
    ensures e.Variants? <==> v.Object?
  {
    match e
    case Price(n) => Num(n)
    case Variants(ps) => Object(seq(|ps|, i requires 0 <= i < |ps| => (ps[i].0, Num(ps[i].1))))
  }

  /** `PRICE_DATA.get(category, {}).get(item)` as a JSON value (`None` is null). */
  function LookupValue(data: PriceData, category: string, item: string): Value
  {
    match Get(Get(data, category).GetOr([]), item)
    case None => Null
    case Some(e) => ToValue(e)
  }

  lemma VariantKeysOfEntry(ps: Dict<int>)
    ensures Keys(ToValue(Variants(ps)).fields) == Keys(ps)
  {
  }
}

/** Discord users as the bot renders them. */
module Users {
  import opened Numerals

  type UserId = int

  /** `user.mention`. */
  function Mention(u: UserId): (m: string)
    ensures |m| >= 4 && m[0] == '<' && m[|m| - 1] == '>'
    ensures forall k :: 0 <= k < |m| ==> MentionChar(m[k])
  {
    var digits := NatToString(if u < 0 then -u else u);
    assert IntToString(u) == (if u < 0 then "-" else "") + digits;
    "<@" + IntToString(u) + ">"
  }

  /** The characters a mention is made of. */
  predicate MentionChar(c: char)
  {
    c == '<' || c == '@' || c == '-' || c == '>' || IsDigit(c)
  }
}
