/** Semantic Plutus Data: exact integers, ordered map pairs, and both spellings of a constructor alternative. */
module PlutusData {

  type Byte = n: int | 0 <= n < 256

  /** A constructor alternative is spelled as a JavaScript number or as a bigint. */
  datatype Tag = Num(n: int) | Big(n: int)

  datatype Data =
    | Int(i: int)
    | Bytes(b: seq<Byte>)
    | List(items: seq<Data>)
    | Constr(tag: Tag, fields: seq<Data>)
    | Map(pairs: seq<(Data, Data)>)
}
