/** The record types the wallet server exchanges: the request naming a user,
    the raw card record as the user table stores it, and the response record
    handed back for each card. */
module PaymentModels {

  datatype Option<+T> = None | Some(value: T)

  /** A card record as the user table holds it: a dictionary from field
      name to field value. Nothing forces a record to carry every field. */
  type RawCard = map<string, string>

  const CardIdKey: string := "card_id"
  const TypeKey: string := "type"
  const BrandKey: string := "brand"
  const Last4Key: string := "last4"
  const NicknameKey: string := "nickname"

  /** The five fields a response record is built from. */
  const ResponseKeys: set<string> := {CardIdKey, TypeKey, BrandKey, Last4Key, NicknameKey}

  /** The request of the lookup tool: only the user id. */
  datatype PaymentMethodRequest = PaymentMethodRequest(userId: string)

  /** One payment method as returned to the caller (the source's `type`
      field is `cardType` here, `type` being a Dafny keyword). */
  datatype PaymentMethodResponse = PaymentMethodResponse(
    cardId: string,
    cardType: string,
    brand: string,
    last4: string,
    nickname: string)

  /** True when every field a response needs is present in the record. */
  predicate HasResponseFields(card: RawCard)
  {
    ResponseKeys <= card.Keys
  }

  /** Builds the response record for one raw card, reading each of the five
      fields by name; a missing field is a failure (None). */
  function ToResponse(card: RawCard): (r: Option<PaymentMethodResponse>)
    ensures r.Some? <==> HasResponseFields(card)
    ensures r.Some? ==>
      && r.value.cardId == card[CardIdKey]
      && r.value.cardType == card[TypeKey]
      && r.value.brand == card[BrandKey]
      && r.value.last4 == card[Last4Key]
      && r.value.nickname == card[NicknameKey]
  {
    if HasResponseFields(card) then
      Some(PaymentMethodResponse(card[CardIdKey], card[TypeKey], card[BrandKey], card[Last4Key], card[NicknameKey]))
    else
      None
  }

  /** The raw record holding exactly the five fields of a response. */
  function ToRawCard(p: PaymentMethodResponse): (card: RawCard)
    ensures card.Keys == ResponseKeys
  {
    map[CardIdKey := p.cardId, TypeKey := p.cardType, BrandKey := p.brand,
        Last4Key := p.last4, NicknameKey := p.nickname]
  }

  /** The part of a raw record that a response carries. */
  function ResponsePart(card: RawCard): RawCard
  {
    map k | k in card && k in ResponseKeys :: card[k]
  }

  /** Converting a response to a raw record and back gives the same response. */
  lemma ResponseRoundTrip(p: PaymentMethodResponse)
    ensures ToResponse(ToRawCard(p)) == Some(p)
  {
    var card := ToRawCard(p);
    assert HasResponseFields(card);
  }

  /** Nothing of the five fields is lost or altered by the conversion: the
      response determines the five-field part of the raw record exactly. */
  lemma RawRoundTrip(card: RawCard)
    requires HasResponseFields(card)
    ensures ToRawCard(ToResponse(card).value) == ResponsePart(card)
  {
    var back := ToRawCard(ToResponse(card).value);
    var part := ResponsePart(card);
    assert back.Keys == part.Keys;
    forall k | k in back
      ensures back[k] == part[k]
    {
    }
  }
}
