/** The server's built-in user table and what the lookup tool answers on it. */
module MockUsers {
  import opened PaymentModels
  import opened SafepayWalletServer

  /** The three users of the server's constant table, each with their cards
      in the order listed. */
  const MOCK_USERS: UserTable := map[
    "user1" := UserRecord("John Doe", [
      map["card_id" := "card_001", "type" := "credit", "brand" := "Chase Freedom",
          "last4" := "1234", "nickname" := "Freedom Card"],
      map["card_id" := "card_002", "type" := "credit", "brand" := "Chase Sapphire Preferred",
          "last4" := "5678", "nickname" := "Sapphire Card"]
    ]),
    "user2" := UserRecord("Jane Smith", [
      map["card_id" := "card_003", "type" := "credit", "brand" := "Chase Freedom Unlimited",
          "last4" := "9012", "nickname" := "Freedom Unlimited"]
    ]),
    "user3" := UserRecord("Bob Wilson", [
      map["card_id" := "card_004", "type" := "credit", "brand" := "Chase Sapphire Reserve",
          "last4" := "3456", "nickname" := "Reserve Card"],
      map["card_id" := "card_005", "type" := "credit", "brand" := "Chase Freedom",
          "last4" := "7890", "nickname" := "Freedom Card"]
    ])
  ]

  /** Every user of the table has at least one card, and every card has all
      five response fields. */
  lemma MockUsersComplete(userId: string)
    requires userId in MOCK_USERS
    ensures Serves(MOCK_USERS, userId)
    ensures |MOCK_USERS[userId].paymentMethods| >= 1
  {
    var cards := MOCK_USERS[userId].paymentMethods;
    forall i | 0 <= i < |cards|
      ensures HasResponseFields(cards[i])
    {
      assert ResponseKeys == {"card_id", "type", "brand", "last4", "nickname"};
    }
  }

  /** On the built-in table the tool answers with the empty list exactly
      for the ids that are not user1, user2 or user3. */
  lemma MockEmptyIffUnknown(userId: string)
    ensures GetPaymentMethods(MOCK_USERS, PaymentMethodRequest(userId)) == [] <==>
            userId !in {"user1", "user2", "user3"}
  {
    assert MOCK_USERS.Keys == {"user1", "user2", "user3"};
    if userId in MOCK_USERS {
      MockUsersComplete(userId);
    }
  }

  /** user1 gets their two cards, card_001 then card_002, with every field
      as the table lists it. */
  lemma User1Scenario()
    ensures GetPaymentMethods(MOCK_USERS, PaymentMethodRequest("user1")) == [
      PaymentMethodResponse("card_001", "credit", "Chase Freedom", "1234", "Freedom Card"),
      PaymentMethodResponse("card_002", "credit", "Chase Sapphire Preferred", "5678", "Sapphire Card")]
    ensures CardIds(GetPaymentMethods(MOCK_USERS, PaymentMethodRequest("user1"))) == ["card_001", "card_002"]
  {
    MockUsersComplete("user1");
    var cards := MOCK_USERS["user1"].paymentMethods;
    var r := GetPaymentMethods(MOCK_USERS, PaymentMethodRequest("user1"));
    assert ToResponse(cards[0]) == Some(r[0]);
    assert ToResponse(cards[1]) == Some(r[1]);
  }

  /** An id the table does not hold gets the empty list, not an error. */
  lemma InvalidUserScenario()
    ensures GetPaymentMethods(MOCK_USERS, PaymentMethodRequest("invalid_user")) == []
    ensures GetUserPaymentMethods(MOCK_USERS, "invalid_user") == Err(UserNotFound("invalid_user"))
  {
    assert "invalid_user" !in MOCK_USERS;
  }
}
