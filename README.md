# SafePay wallet: payment-method directory lookup

This project models the payment-method lookup of the SafePay wallet MCP server
in Dafny. The server keeps a constant table from user id to a user record: a
display name and an ordered list of card records. Each card record is a
dictionary with the fields `card_id`, `type`, `brand`, `last4` and `nickname`.

- `get_user_payment_methods` looks a user up in the table. It returns that
  user's card list unchanged, or fails with a "User <id> not found" error.
- `get_payment_methods` is the tool the server exposes. It turns each card
  record into a `PaymentMethodResponse`, one for one and in order. Any failure
  becomes the empty list.

Modules:

- `PaymentModels` (`payment_models.dfy`) holds the request and response
  records and the raw card record, a `map<string, string>`. It also holds
  `ToResponse`, which reads the five fields by name, and its inverse `ToRawCard`.
- `SafepayWalletServer` (`safepay_wallet_mcp_server.dfy`) holds the lookup, the
  projection of a card list and the tool operation. All three take the user
  table as a parameter.
- `MockUsers` (`mock_users.dfy`) holds the server's three-user table and the
  facts about the tool's answers on it.

A card record is a dictionary, so a record without one of the five fields
makes the projection fail; the server's `except Exception` branch then returns
the empty list. The model keeps that path: `ProjectMethods` returns `None` and
`GetPaymentMethods` answers `[]`. The constant table has no such record
(`MockUsers.MockUsersComplete`).

An unknown user does not get an error from the tool: the server catches the
`ValueError` of the lookup and answers `[]`, the same answer as a known user
with no cards (`SafepayWalletServer.NotFoundLooksLikeNoCards`). The server
does no input validation and attaches no error codes or request ids, so the
model has none either.

## Model

| member | source | states |
|---|---|---|
| `PaymentModels.ResponseRoundTrip` | server/safepay_wallet_mcp_server.py:111-117 | Building a response from the raw record of a response gives that same response back. |
| `PaymentModels.RawRoundTrip` | server/safepay_wallet_mcp_server.py:111-117 | For a card with all five fields, the response turned back into a raw record is exactly the card's five-field part, so no field is lost or altered. |
| `PaymentModels.ToResponse` | server/safepay_wallet_mcp_server.py:111-117 | A response is built exactly when the card has all five fields (a missing one is the KeyError path), and then each response field equals the card's value under the same key. |
| `SafepayWalletServer.LookupError.Message` | server/safepay_wallet_mcp_server.py:91 | The not-found message is `"User "`, then the user id, then `" not found"`. |
| `SafepayWalletServer.MessageIdentifiesUser` | server/safepay_wallet_mcp_server.py:91 | Two not-found errors with the same message are about the same user id. |
| `SafepayWalletServer.GetUserPaymentMethods` | server/safepay_wallet_mcp_server.py:90-93 | The lookup succeeds exactly when the id is a key of the table. It then returns that user's card list unchanged; otherwise it fails with not-found for that id. |
| `SafepayWalletServer.ProjectMethods` | server/safepay_wallet_mcp_server.py:110-119 | The projection of a card list succeeds exactly when every card has all five fields, and then it has as many responses as there are cards. |
| `SafepayWalletServer.ProjectMethodsAt` | server/safepay_wallet_mcp_server.py:110-119 | The i-th response of a successful projection is built from the i-th card. |
| `SafepayWalletServer.ProjectMethodsAppend` | server/safepay_wallet_mcp_server.py:110-119 | Projecting two lists joined gives the two projections joined, in the same order. |
| `SafepayWalletServer.GetPaymentMethods` | server/safepay_wallet_mcp_server.py:95-129 | An unknown user gets `[]`. A user whose cards are complete gets as many responses as cards, the i-th built from the i-th card. The answer is empty exactly when the user is unknown, a card lacks a field, or the user has no cards. |
| `SafepayWalletServer.ResponseFieldsPreserved` | server/safepay_wallet_mcp_server.py:108-117 | Each of the five fields of the i-th response equals the same field of the i-th card in the table. |
| `SafepayWalletServer.ResponsesRecoverCards` | server/safepay_wallet_mcp_server.py:108-119 | Each response, turned back into a raw record, is the five-field part of the card at the same position. |
| `SafepayWalletServer.CardIdsInTableOrder` | server/safepay_wallet_mcp_server.py:108-119 | The card ids of the answer are the table's card ids for that user, in the table's order. |
| `SafepayWalletServer.NotFoundLooksLikeNoCards` | server/safepay_wallet_mcp_server.py:124-126 | An unknown user and a known user with no cards both get `[]`: not-found is swallowed. |
| `MockUsers.MockUsersComplete` | server/safepay_wallet_mcp_server.py:21-72 | Every user of the built-in table has at least one card, and every card has all five fields. |
| `MockUsers.MockEmptyIffUnknown` | server/safepay_wallet_mcp_server.py:21-72 | On the built-in table the answer is empty exactly when the id is not user1, user2 or user3. |
| `MockUsers.User1Scenario` | test_safepay_wallet_mcp.py:13-15 | user1 gets the responses for card_001 and then card_002, with every field as in the table. |
| `MockUsers.InvalidUserScenario` | test_safepay_wallet_mcp.py:18-20 | `invalid_user` gets the empty list, and the lookup under it fails with not-found for that id. |

## Left out

- The FastMCP server, its construction and the tool registration (server/safepay_wallet_mcp_server.py:9, 75, 132-135) are transport, not lookup logic.
- Logging setup and every log call are left out, since they only have side effects. The not-found message is kept because it is part of the error value.
- The `sys.path` change and the `__main__` runner are process start-up.
- `async`/`await` is not modelled: `get_payment_methods` never suspends, so it is a plain function here.
- `model/payment_method_request.py` and `model/payment_method_response.py` are not part of this model. `PaymentMethodRequest` and `PaymentMethodResponse` are defined from how the server uses them (lines 105-117). The response's `type` field is called `cardType`, because `type` is a Dafny keyword.
- Field values are modelled as strings, as every value in the server's table is. The declaration of `PaymentMethodResponse` is not part of this model, so its field types and any conversion it applies to a non-string value are unknown. The model assumes its fields are strings taken over unchanged.
- The `except Exception` branch is modelled only for the one cause the model's types can represent: a card that lacks one of the five fields. On the server's own table even this cannot happen (`MockUsers.MockUsersComplete`). The types exclude other shapes that would raise inside the `try` on a general table: a user record without `"payment_methods"` (a KeyError at line 93) and a card that is not a dictionary. In the server each of these also ends in `[]`.
- The user record's `name` field is kept in the table but nothing reads it, as in the server.
- `ValidationRequest` and `ValidationResponse` only declare fields. No code evaluates a charge, so there is nothing to model.
