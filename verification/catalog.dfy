/** Catalog records and their conversion into DynamoDB put-request items
    (maido/cmd/refresh/command.go, the `item` struct and `generatePutRequestInput`). */
module Catalog {
  import opened Results

  /** One catalog record. `category` is the Go field `Type`, stored under the
      attribute `PK`; `name` is the field `Name`, stored under `SK`. */
  datatype Item = Item(
    category: string,
    name: string,
    action: string,
    listed: bool,
    description: string,
    price: string)

  /** The partition key every record is written under by the refresh command. */
  const BlendCategory: string := "BLEND"

  /** A DynamoDB attribute value, restricted to the two kinds the record uses. */
  datatype AttributeValue = S(s: string) | BOOL(b: bool)

  type AttributeMap = map<string, AttributeValue>

  /** For every record, the error the attribute encoder reports for it, if any.
      The encoder's failure conditions are not part of this model. */
  type MarshalFailures = Item -> Option<string>

  /** Decodes an attribute map back into a record (the inverse of `Attributes`). */
  function Unmarshal(m: AttributeMap): Option<Item>
  {
    if && "PK" in m && m["PK"].S?
       && "SK" in m && m["SK"].S?
       && "Action" in m && m["Action"].S?
       && "Listed" in m && m["Listed"].BOOL?
       && "Description" in m && m["Description"].S?
       && "Price" in m && m["Price"].S?
    then Some(Item(m["PK"].s, m["SK"].s, m["Action"].s, m["Listed"].b, m["Description"].s, m["Price"].s))
    else None
  }

  /** The attribute map the encoder produces for a record: one attribute per
      struct field, named by its `dynamodbav` tag. */
  function Attributes(it: Item): AttributeMap
  {
    map["PK" := S(it.category), "SK" := S(it.name), "Action" := S(it.action),
        "Listed" := BOOL(it.listed), "Description" := S(it.description), "Price" := S(it.price)]
  }

  /** The record with its category replaced by `BlendCategory`; the Go function
      receives the record by value, so the caller's copy is untouched. */
  function Stamp(it: Item): Item
  {
    it.(category := BlendCategory)
  }

  /** `generatePutRequestInput`: stamp the record, then encode it. */
  function GeneratePutRequestInput(it: Item, failures: MarshalFailures): (r: Result<AttributeMap, string>)
    ensures r.Failure? <==> failures(Stamp(it)).Some?
    ensures r.Failure? ==> r.error == failures(Stamp(it)).value
  {
    var stamped := Stamp(it);
    match failures(stamped)
    case Some(e) => Failure(e)
    case None => Success(Attributes(stamped))
  }

  /** Encoding loses nothing: decoding the attribute map gives the record back. */
  lemma AttributesRoundTrip(it: Item)
    ensures Attributes(it).Keys == {"PK", "SK", "Action", "Listed", "Description", "Price"}
    ensures Unmarshal(Attributes(it)) == Some(it)
  {
  }

  /** An accepted record is written under partition key `BLEND` whatever its
      own category, and every other field is encoded unchanged. */
  lemma PutRequestStamped(it: Item, failures: MarshalFailures)
    requires GeneratePutRequestInput(it, failures).Success?
    ensures GeneratePutRequestInput(it, failures).value["PK"] == S(BlendCategory)
    ensures Unmarshal(GeneratePutRequestInput(it, failures).value) == Some(it.(category := BlendCategory))
  {
  }
}
