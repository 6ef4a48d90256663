/** The payment-method lookup of the wallet server: a lookup of a user's
    card list in a user table, and the tool operation that turns that list
    into response records. Both are parameterised over the table; the
    server's own constant table is in module MockUsers. */
module SafepayWalletServer {
  import opened PaymentModels

  /** A user's entry in the table: a display name and the ordered card list. */
  datatype UserRecord = UserRecord(name: string, paymentMethods: seq<RawCard>)

  /** The user table, keyed by user id. */
  type UserTable = map<string, UserRecord>

  /** The failure of the lookup (a ValueError in the server). */
  datatype LookupError = UserNotFound(userId: string)
  {
    /** The error's message text. */
    function Message(): (msg: string)
      ensures |msg| == |userId| + 15
      ensures msg[..5] == "User "
      ensures msg[5..|msg| - 10] == userId
      ensures msg[|msg| - 10..] == " not found"
    {
      "User " + userId + " not found"
    }
  }

  datatype Result<+T> = Ok(value: T) | Err(error: LookupError)

  /** The card list of a user, or a not-found failure when the id is not a
      key of the table. The list is the table's own, unchanged. */
  function GetUserPaymentMethods(users: UserTable, userId: string): (r: Result<seq<RawCard>>)
    ensures r.Ok? <==> userId in users
    ensures r.Ok? ==> r.value == users[userId].paymentMethods
    ensures r.Err? ==> r.error == UserNotFound(userId)
  {
    if userId !in users then
      Err(UserNotFound(userId))
    else
      Ok(users[userId].paymentMethods)
  }

  /** True when every card of the list has all five response fields. */
  predicate AllHaveResponseFields(cards: seq<RawCard>)
  {
    forall i :: 0 <= i < |cards| ==> HasResponseFields(cards[i])
  }

  /** Maps every raw card to its response record, in order; fails as a
      whole as soon as one record lacks a field. */
  function ProjectMethods(cards: seq<RawCard>): (r: Option<seq<PaymentMethodResponse>>)
    ensures r.Some? <==> AllHaveResponseFields(cards)
    ensures r.Some? ==> |r.value| == |cards|
  {
    if cards == [] then
      Some([])
    else
      match ToResponse(cards[0])
      case None => None
      case Some(head) =>
        match ProjectMethods(cards[1..])
        case None => None
        case Some(tail) => Some([head] + tail)
  }

  /** The i-th response is built from the i-th card. */
  lemma {:induction false} ProjectMethodsAt(cards: seq<RawCard>, i: nat)
    requires ProjectMethods(cards).Some?
    requires i < |cards|
    ensures ToResponse(cards[i]) == Some(ProjectMethods(cards).value[i])
  {
    if i > 0 {
      ProjectMethodsAt(cards[1..], i - 1);
    }
  }

  /** True when the user is in the table and each of their cards has all
      five fields, so that the tool answers with their cards. */
  predicate Serves(users: UserTable, userId: string)
  {
    userId in users && AllHaveResponseFields(users[userId].paymentMethods)
  }

  /** The lookup tool: the user's cards as response records, in the order
      the table lists them. Any failure, the unknown user included, gives
      the empty list instead of an error. */
  function GetPaymentMethods(users: UserTable, request: PaymentMethodRequest): (r: seq<PaymentMethodResponse>)
    ensures request.userId !in users ==> r == []
    ensures Serves(users, request.userId) ==>
      var cards := users[request.userId].paymentMethods;
      && |r| == |cards|
      && forall i :: 0 <= i < |cards| ==> ToResponse(cards[i]) == Some(r[i])
    ensures r == [] <==>
      !Serves(users, request.userId) || users[request.userId].paymentMethods == []
  {
    match GetUserPaymentMethods(users, request.userId)
    case Err(_) => []
    case Ok(methods) =>
      assert ProjectMethods(methods).Some? ==>
        forall i :: 0 <= i < |methods| ==> ToResponse(methods[i]) == Some(ProjectMethods(methods).value[i])
      by {
        if ProjectMethods(methods).Some? {
          forall i | 0 <= i < |methods|
            ensures ToResponse(methods[i]) == Some(ProjectMethods(methods).value[i])
          {
            ProjectMethodsAt(methods, i);
          }
        }
      }
      match ProjectMethods(methods)
      case None => []
      case Some(responses) => responses
  }

  /** The card ids of a response list, in order. */
  function CardIds(responses: seq<PaymentMethodResponse>): seq<string>
  {
    seq(|responses|, i requires 0 <= i < |responses| => responses[i].cardId)
  }

  /** The message of a not-found failure names the user: two failures with
      the same message are about the same user. */
  lemma MessageIdentifiesUser(e1: LookupError, e2: LookupError)
    requires e1.Message() == e2.Message()
    ensures e1 == e2
  {
    var m := e1.Message();
    assert e1.userId == m[5..|m| - 10] == e2.userId;
  }

  lemma TailOfAppend<T>(a: seq<T>, b: seq<T>)
    requires a != []
    ensures (a + b)[1..] == a[1..] + b
  {
  }

  /** Projection commutes with concatenation: the responses for a joined
      list are the responses for each part, joined in the same order. */
  lemma {:induction false} ProjectMethodsAppend(a: seq<RawCard>, b: seq<RawCard>)
    requires ProjectMethods(a).Some? && ProjectMethods(b).Some?
    ensures ProjectMethods(a + b) == Some(ProjectMethods(a).value + ProjectMethods(b).value)
  {
    if a == [] {
      assert ProjectMethods(a) == Some([]);
      assert a + b == b;
      assert [] + ProjectMethods(b).value == ProjectMethods(b).value;
    } else {
      var head := ToResponse(a[0]).value;
      var restA := ProjectMethods(a[1..]).value;
      var all := ProjectMethods(b).value;
      assert ProjectMethods(a) == Some([head] + restA);
      assert ProjectMethods(a[1..] + b) == Some(restA + all) by {
        ProjectMethodsAppend(a[1..], b);
      }
      assert ProjectMethods(a + b) == Some([head] + (restA + all)) by {
        assert (a + b)[0] == a[0];
        TailOfAppend(a, b);
      }
      assert [head] + (restA + all) == ([head] + restA) + all;
    }
  }

  /** Every field of every response record equals the same field of the
      raw card at the same position. */
  lemma ResponseFieldsPreserved(users: UserTable, request: PaymentMethodRequest, i: nat)
    requires Serves(users, request.userId)
    requires i < |users[request.userId].paymentMethods|
    ensures
      var card := users[request.userId].paymentMethods[i];
      var r := GetPaymentMethods(users, request);
      && i < |r|
      && r[i].cardId == card[CardIdKey]
      && r[i].cardType == card[TypeKey]
      && r[i].brand == card[BrandKey]
      && r[i].last4 == card[Last4Key]
      && r[i].nickname == card[NicknameKey]
  {
    var card := users[request.userId].paymentMethods[i];
    assert ToResponse(card) == Some(GetPaymentMethods(users, request)[i]);
  }

  /** Nothing of the five fields is dropped: each response record turned
      back into a raw record is the five-field part of its source card. */
  lemma ResponsesRecoverCards(users: UserTable, request: PaymentMethodRequest, i: nat)
    requires Serves(users, request.userId)
    requires i < |users[request.userId].paymentMethods|
    ensures
      var r := GetPaymentMethods(users, request);
      && i < |r|
      && ToRawCard(r[i]) == ResponsePart(users[request.userId].paymentMethods[i])
  {
    var card := users[request.userId].paymentMethods[i];
    RawRoundTrip(card);
  }

  /** The tool's card ids are the table's card ids, in the table's order. */
  lemma CardIdsInTableOrder(users: UserTable, request: PaymentMethodRequest)
    requires Serves(users, request.userId)
    ensures
      var cards := users[request.userId].paymentMethods;
      CardIds(GetPaymentMethods(users, request)) ==
        seq(|cards|, i requires 0 <= i < |cards| && CardIdKey in cards[i] => cards[i][CardIdKey])
  {
    var cards := users[request.userId].paymentMethods;
    var r := GetPaymentMethods(users, request);
    forall i | 0 <= i < |cards|
      ensures CardIds(r)[i] == cards[i][CardIdKey]
    {
      ResponseFieldsPreserved(users, request, i);
    }
  }

  /** A known user with no cards and an unknown user get the same answer:
      the tool does not tell the two apart. */
  lemma NotFoundLooksLikeNoCards(users: UserTable, known: string, unknown: string)
    requires known in users && users[known].paymentMethods == []
    requires unknown !in users
    ensures GetPaymentMethods(users, PaymentMethodRequest(known)) ==
            GetPaymentMethods(users, PaymentMethodRequest(unknown)) == []
  {
  }
}
