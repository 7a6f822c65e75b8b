# WhatsApp webhook and point-of-sale core, in Dafny

This project models the core of a small point-of-sale back end that people
drive from WhatsApp, and proves properties of that model:

- the webhook service (`WebhookService`):
  - the subscription handshake;
  - extraction of the first message from either payload shape;
  - the "A" shortcut that opens a customer-creation flow;
  - the pending-sender set the flow keeps;
  - the reply that creates the customer from up to three lines;
- the second message router (`MessageHandlerService`), which handles shortcuts, greetings and multi-line customer creation;
- the shortcut table and the privileged-sender check (`ShortcutService`);
- the customer and supplier services, over a registry keyed by the normalised name (trimmed, lower-case);
- the product repository's batch import, status update and search-term classification;
- the WhatsApp Cloud API client's URL normalisation and payload builders, and the list-message template helpers;
- the `.env` line parser and the database-URL precedence used when creating tables;
- the in-memory message and user repositories;
- the field validators of the seven domain entities.

Layout: one module per source file, plus these shared modules:

- `Wrappers` holds `Option` and `Result`.
- `Text` holds ASCII `strip`, `lower`, `upper`, `splitlines` and digits.
- `Json` holds decoded JSON values and the Python operations the webhook applies to them: `.get`, `[0]`, `.strip`, truthiness. An operation either yields a value or raises.
- `Validators` holds the field validators the entities share.
- `Outbound` is the sender. The caller scripts which sends fail, so every property holds for any pattern of delivery failures.

How each source file is modelled:

- Code that mutates state is modelled as classes whose methods are proved equal to a specification function on values. This covers the pending set in `WebhookConversationState`, the customer and supplier services, the product store, the environment map and the in-memory repositories.
- Pure code is modelled as functions with lemmas.
- `build_sections_from_items` and `_load_env_file_simple` keep their loops.

Things passed in as parameters rather than modelled:

- Clocks and fresh identifiers are parameters (`now`, `id`).
- Decimal amounts are integers (cents).
- Timestamps are integers.

Where the code differs from the documented behaviour, the model follows the code:

- During the webhook flow, a reply such as `"\n\n"` is stripped before routing. It is therefore ignored, and does not raise a validation error.
- The pending flag is not always cleared after a creation attempt. If the failure report itself cannot be sent, the exception escapes before the `discard` at src/app/services/webhook_service.py:177 runs, and the sender stays pending.
- A supplier is stored with its trimmed name, not the raw input. Creation builds a `ProveedorEntity`, whose validator trims the name.
- A pending sender whose reply starts with "A" or "a" (a name such as "Ana") does not create a customer. The "A" rule at src/app/services/webhook_service.py:103 is checked before the pending one at line 106, so the flow starts over and the sender stays pending.
- A failed WhatsApp send is reported as a 502 whose detail is "WhatsApp API error : " followed by the exception text, without the status code or the response body (see Findings).
- `build_sections_from_items` raises TypeError as soon as one item is a dict, and works only on objects read through `getattr` (see Findings).

## Model

| member | source | states |
|---|---|---|
| Webhook.VerifySubscription | src/app/services/webhook_service.py:55-69 | succeeds exactly when mode is "subscribe" and the token matches; then it returns the challenge unchanged; otherwise it fails with 403 "Invalid token" |
| Webhook.NoClientUnavailable | src/app/services/webhook_service.py:77-81 | with no WhatsApp client the webhook fails with 503 before reading the payload; the world (pending set, sends, registry) is unchanged |
| Webhook.ExtractMessages | src/app/services/webhook_service.py:112-128 | a non-empty nested `entry[0].changes[0].value.messages` wins; otherwise it falls back to `body.value.messages`; it raises only if that fallback `value` is not a dict, so a malformed nested shape never raises |
| Webhook.NestedAndFlatAgree | src/app/services/webhook_service.py:116-126 | the same non-empty messages give the same result whether sent nested or flat |
| Webhook.UnrelatedPayloadHasNoMessages | src/app/services/webhook_service.py:124-128 | a body with neither `entry` nor `value` yields `({}, [])` |
| Webhook.ContactNameFound | src/app/services/webhook_service.py:130-137 | the name is read from `contacts[0].profile.name` |
| Webhook.ContactNameMissing | src/app/services/webhook_service.py:131-137 | a value that is not a dict gives no name, without raising |
| Webhook.ReadMessage | src/app/services/webhook_service.py:93-94 | a value exactly when `messages` is a non-empty list whose first element is a dict, with `text` a dict and its `body` a string where present; the value is the stripped body ("" when absent) and `from` (None when absent); any other shape raises |
| Webhook.TryNested | src/app/services/webhook_service.py:117-120 | no `entry` raises; a value has a dict `value` and its `messages` ([] when absent) |
| Webhook.GetContactName | src/app/services/webhook_service.py:130-137 | a name other than None is exactly `value.contacts[0].profile.name`, with every step a dict or non-empty list; conversely, whenever that path exists its name is returned |
| Webhook.Handle | src/app/services/webhook_service.py:71-110 | no client gives 503 and changes nothing; the status is "ok" or "ignored", and "ignored" changes nothing; a failure is the 503, a malformed payload or a send exception |
| Webhook.Route | src/app/services/webhook_service.py:97-110 | missing text or sender is ignored; "ignored" changes nothing; only the sender can become pending; the registry changes only for a pending sender whose text does not start with "A"; a failure is a malformed sender or a send exception |
| Webhook.ANameRestartsFlow | src/app/services/webhook_service.py:103-107 | a pending sender's reply "Ana\n3001234567\nana@example.com" creates nothing, keeps the pending set and resends the instructions |
| Webhook.IncompleteMessageIgnored | src/app/services/webhook_service.py:86-99 | a first message with missing or blank text returns "ignored"; the pending set, sends and registry are unchanged |
| Webhook.APrefixStartsFlow | src/app/services/webhook_service.py:103-104 | text whose upper case starts with "A" adds the sender to pending whatever its prior membership; exactly one instruction message is sent; the result is "ok" exactly when that send is delivered |
| Webhook.StartFlow | src/app/services/webhook_service.py:139-149 | pending becomes pending + {sender}; the instruction text is appended to the sends; the result is "ok" or the send's exception |
| Webhook.NotPendingIgnored | src/app/services/webhook_service.py:106-110 | a non-pending sender whose text does not start with "A" is ignored, and nothing changes |
| Webhook.RouteContinues | src/app/services/webhook_service.py:106-107 | a pending sender's non-"A" text goes to the continuation |
| Webhook.ContinuationOutcome | src/app/services/webhook_service.py:151-178 | a non-blank reply always has a name, so the empty-name return is not reached; the parsed draft goes to `create_cliente` and the result is as `AfterCreate` states |
| Webhook.ContinueFlow | src/app/services/webhook_service.py:151-178 | an empty name sends "El nombre es obligatorio ..." and keeps pending and the registry; otherwise the registry is `create_cliente`'s and "ok" discards the sender; a failure is a send exception and keeps pending |
| Webhook.AfterCreate | src/app/services/webhook_service.py:166-178 | the registry is the service's; on "ok" the sender is discarded from pending; a raised send leaves pending as it was, and is a send exception; a created customer with a delivered confirmation gives exactly "ok"; a refused create sends "No se pudo crear el cliente: " + the error text, and a created customer whose confirmation fails sends it with the send exception's text; in both cases a delivered report gives "ok" and removes the sender, and a failed report gives that send's exception and keeps pending; "ok" exactly when the last send is delivered |
| Webhook.Confirmation | src/app/services/webhook_service.py:171 | the confirmation starts with "Cliente creado: " and the name, and ends with ". Responde A para crear otro o NO para finalizar." |
| Webhook.ContinuationDiscards | src/app/services/webhook_service.py:166-177 | after a continuation, the registry is the result of `create_cliente`; an "ok" result removes only this sender from pending; a failure leaves pending unchanged; the result is "ok" exactly when the last send (the confirmation, or the report after it) is delivered |
| Webhook.SecondReplyIgnored | src/app/services/webhook_service.py:106-110 | after a successful continuation, a further non-"A" reply from that sender is ignored |
| Webhook.DraftRoundTrip | src/app/services/webhook_service.py:157-168 | a clean three-line reply "name\nphone\nemail" creates the customer from exactly those three lines |
| Webhook.SendFailure | src/app/services/webhook_service.py:186-195 | a delivered send raises nothing; an HTTP error becomes 502 with the detail as written, "WhatsApp API error : " + str(exc) for every error status; any other requests error propagates |
| Webhook.SendFailureCorrected | src/app/services/webhook_service.py:186-195 | corrected: the same outcomes, but the 502 detail starts with "WhatsApp API error <status>: " and ends with the response body |
| Webhook.CorrectionOnlyChangesDetail | src/app/services/webhook_service.py:188-195 | the as-written and the corrected exception agree on whether a send failed and on everything but the 502 detail, which differs for every error status |
| Webhook.SendText | src/app/services/webhook_service.py:180-187 | one text message to the recipient is appended to the sends; a failure is a 502 HTTPException or a requests error |
| Webhook.ExcText | src/app/services/webhook_service.py:175 | `str(exc)`: an HTTPException prints as "<status>: " followed by its detail; the others print their own text |
| Webhook.ErrorDetail | src/app/services/webhook_service.py:190 | corrected detail: it starts with "WhatsApp API error <status>: " and ends with the response body |
| Webhook.AsWrittenDropsStatus | src/app/services/webhook_service.py:190 | as written, every HTTP error status (at least 400) yields "WhatsApp API error : " plus the exception text; so a 404 gives a different detail from the intended one |
| Webhook.ConversationState.constructor | src/app/services/webhook_service.py:14-16 | the pending set starts empty |
| Webhook.WebhookService.constructor | src/app/services/webhook_service.py:42-53 | keeps the token, the shared state and the client |
| Webhook.WebhookService.SendMessage | src/app/services/webhook_service.py:180-195 | the failure and the new channel are those of `SendText` |
| Webhook.WebhookService.StartClienteFlow | src/app/services/webhook_service.py:139-149 | the new pending set and sends are those of `StartFlow` (an in-place `add`) |
| Webhook.WebhookService.HandleClienteCreacion | src/app/services/webhook_service.py:151-178 | the result, pending set, sends and registry are those of `ContinueFlow` |
| Webhook.WebhookService.FinishCreacion | src/app/services/webhook_service.py:166-178 | the new state is that of `AfterCreate` (an in-place `discard`) |
| Webhook.WebhookService.HandleWebhook | src/app/services/webhook_service.py:71-110 | the result and the new pending set, sends and registry equal `Handle` on the old ones; with no client, nothing changes |
| ClienteDraft.Parse | src/app/services/webhook_service.py:157-160 | the name is the first line; the phone and the email are the second and third lines, present exactly when there are that many |
| ClienteDraft.Lines | src/app/services/webhook_service.py:157 | the non-blank stripped lines, or the stripped text alone when there are none; never empty |
| ClienteDraft.ParseFromLines | src/app/services/webhook_service.py:157-160 | for any text, the first, second and third non-blank lines of `splitlines()`, trimmed, are the name, phone and email; phone and email are present exactly when there are that many such lines |
| Text.StripLinesLength | src/app/services/webhook_service.py:157 | the comprehension keeps one entry per line that is non-blank once trimmed |
| Text.StripLinesAt | src/app/services/webhook_service.py:157 | a non-blank line appears trimmed at the position given by the number of non-blank lines before it |
| ClienteDraft.NameEmptyIffBlank | src/app/services/webhook_service.py:157-158 | the parsed name is empty exactly when the text is blank |
| ClienteDraft.ThreeLines | src/app/services/webhook_service.py:157-160 | three clean lines parse to name, phone and email |
| ClienteDraft.LaterLinesIgnored | src/app/services/webhook_service.py:157-160 | lines after the third are ignored |
| ClienteDraft.NameOnly | src/app/services/webhook_service.py:159-160 | one line gives a name with no phone and no email |
| Shortcuts.NewShortcutService | src/domain/services/shortcut_service.py:10-17 | a non-empty custom table replaces the defaults; None or an empty table gives the defaults {"I","S"} |
| Shortcuts.GetReplyForShortcut | src/domain/services/shortcut_service.py:19-30 | a reply exists exactly when the text is present and its stripped form is a key; the reply is that key's value |
| Shortcuts.ReplyIgnoresSender | src/domain/services/shortcut_service.py:19-30 | the sender has no effect on the reply |
| Shortcuts.DefaultShortcutsCaseSensitive | src/domain/services/shortcut_service.py:11-14 | " I \n" gets the income reply; "i" gets none |
| Shortcuts.IsAllowedCategorySender | src/domain/services/shortcut_service.py:32-45 | true exactly when the sender's digits end with an allowed number; so never for a missing or empty sender, or one with no digits |
| Shortcuts.AllowedSenderPrefixTolerant | src/domain/services/shortcut_service.py:39-45 | putting any prefix before an allowed sender keeps it allowed |
| Shortcuts.AllowedSenderAccepted | src/domain/services/shortcut_service.py:17 | "3004356388" is allowed, with any prefix such as "57" or "+57" |
| Shortcuts.OtherSendersRefused | src/domain/services/shortcut_service.py:36-45 | "3004356399", "+" and None are refused |
| MessageHandler.GreetingIgnoresCaseAndSpace | src/app/services/message_handler_service.py:47-55 | stripping or lower-casing a text never changes whether it is a greeting |
| MessageHandler.GreetingExamples | src/app/services/message_handler_service.py:47-55 | "hola" and "Hi" are greetings; "", "hola amigo" and "ok" are not |
| MessageHandler.CreateClienteFromText | src/app/services/message_handler_service.py:57-74 | with no service it fails with RuntimeError; a blank message fails with "name required"; otherwise the parsed draft goes to `create_cliente` and its result and registry are passed back |
| MessageHandler.CreateErrorText | src/app/services/message_handler_service.py:62-73 | `str(exc)` of each creation error is non-empty and tells the missing service and the missing name apart from a refusal, which prints the service's text |
| MessageHandler.GreetingReply | src/app/services/message_handler_service.py:108 | "Hola" without a name; otherwise "Hola " + name, stripped |
| MessageHandler.GreetingWithName | src/app/services/message_handler_service.py:108 | a name without trailing blanks gives exactly "Hola " + name |
| MessageHandler.SendIfAble | src/app/services/message_handler_service.py:109-110 | a message is sent exactly when there is both a client and a sender id |
| MessageHandler.ReportCreation | src/app/services/message_handler_service.py:116-126 | the registry is kept; without a client or sender id nothing is sent and the outcome is the created customer or the creation error; otherwise a created customer is confirmed with "Cliente creado: <nombre>." and is reported as created exactly when that send goes through; a refusal, or a failed confirmation, sends "No se pudo crear el cliente: <error>", and the outcome is that error unless this report fails, in which case it escapes |
| MessageHandler.HandleIncomingMessage | src/app/services/message_handler_service.py:76-128 | an empty message is ignored; sends only append, at most two; a raise needs a client and a sender id; the registry changes only for a multi-line text with a service |
| MessageHandler.EmptyIgnored | src/app/services/message_handler_service.py:80-81 | an empty message gives "ignored/empty_message"; nothing is sent or stored |
| MessageHandler.PlusMinusSilent | src/app/services/message_handler_service.py:88-94 | a trimmed "+" or "-" echoes the token and the sender id; nothing is sent |
| MessageHandler.MenuShortcut | src/app/services/message_handler_service.py:96-104 | "A" or "a" after trimming gives the "A" shortcut or a raise; the menu is sent only when a client with buttons and a sender id exist, and then the shortcut is returned exactly when the menu is delivered; nothing is stored |
| MessageHandler.AIsExactMatch | src/app/services/message_handler_service.py:96 | "Alta" is not the "A" shortcut and ends as "unknown" |
| MessageHandler.GreetingAnswered | src/app/services/message_handler_service.py:107-111 | a greeting is answered with `GreetingReply`, sent only when a client and a sender id exist; the result is `Greeted(id)` or a raise, and with a way to send it is `Greeted(id)` exactly when the reply is delivered; nothing is stored |
| MessageHandler.CreationOnlyForMultiline | src/app/services/message_handler_service.py:88-128 | creation is attempted only for a message that contains "\n", when a service is present, and when no earlier rule (shortcut, "A", greeting) matched |
| MessageHandler.NoClientNoSend | src/app/services/message_handler_service.py:97-125 | without a client nothing is ever sent, and nothing raises |
| MessageHandler.CreationReached | src/app/services/message_handler_service.py:113-126 | conversely, a multi-line text with a service that no earlier rule takes goes to creation: the registry is `create_cliente`'s on the parsed draft, and the outcome is `ReportCreation` of the result |
| MessageHandler.OtherwiseUnknown | src/app/services/message_handler_service.py:113-128 | every other non-empty text no earlier rule takes is "ignored/unknown" with the sender id; nothing is sent or stored |
| MessageHandler.OnlyLineBreaksIsError | src/app/services/message_handler_service.py:64-70 | with a service, "\n\n" reaches creation with an empty name: the outcome is the "nombre obligatorio" error, reported to a reachable sender, or the escape of that report; nothing is stored |
| Clientes.ErrorText | src/domain/services/ClienteService.py:21-31 | `str(exc)` of a refusal is non-empty, and is "El cliente ya existe" exactly for the existing-name refusal |
| Clientes.FindByNombreNormalizado | src/infrastructure/repository/ClienteRepository.py:43-53 | an empty key is never found; otherwise this is the registry entry for the normalised key |
| Clientes.Create | src/domain/services/ClienteService.py:20-32 | a name whose normalised form is found fails with "El cliente ya existe" and creates nothing; otherwise the record is stored under the normalised key, with the raw name; a blank name reaches the unique constraint instead |
| Clientes.CreatePreservesWellFormed | src/domain/services/ClienteService.py:20-32 | create keeps keys equal to the normalised names, and ids distinct; earlier records are untouched; the size grows by one exactly on success |
| Clientes.SecondCreateFails | src/domain/services/ClienteService.py:21-24 | a second customer whose name normalises the same is refused |
| Clientes.BlankNameReachesConstraint | src/domain/services/ClienteService.py:21-31 | a first blank name is stored under ""; a second one fails with the unique-constraint error |
| Clientes.GetByNombreNormalizado | src/domain/services/ClienteService.py:50-56 | blank input gives None; otherwise it looks up `strip().lower()` |
| Clientes.CreatedIsFound | src/domain/services/ClienteService.py:50-56 | a created customer is found by any name that normalises the same |
| Clientes.GetCliente | src/domain/services/ClienteService.py:34-38 | found exactly when a record has that id; None when absent |
| Clientes.SearchClientes | src/domain/services/ClienteService.py:44-48 | a blank term gives nothing; otherwise exactly the records matching the trimmed term |
| Clientes.ClienteService.constructor | src/domain/services/ClienteService.py:17-18 | the service starts on the given registry |
| Clientes.ClienteService.CreateCliente | src/domain/services/ClienteService.py:20-32 | the result and new registry are those of `Create` |
| Proveedores.FindByNombreNormalizado | src/infrastructure/repository/createProveedorRepository.py:43-53 | an empty key is never found; otherwise this is the entry for the normalised key |
| Proveedores.Create | src/domain/services/proveedor_service.py:19-31 | an existing normalised name fails with "El proveedor ya existe"; otherwise the entity is validated; on success it is stored under the normalised key; on failure nothing changes |
| Proveedores.CreateOutcome | src/domain/services/proveedor_service.py:19-31 | for an accepted request, create succeeds exactly when the name is non-blank and its normalised form is new; the stored name is trimmed; blank phone and email become None |
| Proveedores.CreatePreservesWellFormed | src/domain/services/proveedor_service.py:19-31 | keys stay equal to the normalised names, and ids distinct; earlier records are untouched |
| Proveedores.SecondCreateFails | src/domain/services/proveedor_service.py:20-23 | a second supplier whose name normalises the same is refused |
| Proveedores.GetProveedor | src/domain/services/proveedor_service.py:33-37 | found exactly when a record has that id |
| Proveedores.SearchProveedores | src/domain/services/proveedor_service.py:43-47 | a blank term gives nothing; otherwise exactly the matching records |
| Proveedores.ProveedorService.CreateProveedor | src/domain/services/proveedor_service.py:19-31 | the result and new registry are those of `Create` |
| Text.NormalizeName | src/domain/services/ClienteService.py:12-13 | the normalised name is no longer than the input and neither starts nor ends with whitespace |
| Text.NormalizedHasNoUpper | src/domain/services/ClienteService.py:12-13 | the normalised name holds no upper-case ASCII letter |
| Text.NormalizeNameIdempotent | src/domain/services/ClienteService.py:12-13 | normalising (strip + lower) twice is normalising once |
| ProductRepository.Stamp | src/infrastructure/repository/createProductsRepository.py:23-24 | a missing creation date is `now`; a missing update date is the creation date; nothing else changes |
| ProductRepository.StampIdempotent | src/infrastructure/repository/createProductsRepository.py:23-24 | stamping a stamped product later changes nothing |
| ProductRepository.EstadoFilter | src/infrastructure/repository/createProductsRepository.py:88-94 | Some(true) exactly for a truthy lowered, trimmed term; Some(false) exactly for a falsy one; otherwise no filter |
| ProductRepository.TermsDisjoint | src/infrastructure/repository/createProductsRepository.py:88-89 | no term is both truthy and falsy |
| ProductRepository.EstadoFilterPadded | src/infrastructure/repository/createProductsRepository.py:90-92 | " SI " filters active products |
| ProductRepository.EstadoFilterMixedCase | src/infrastructure/repository/createProductsRepository.py:93-94 | "Off" filters inactive products |
| ProductRepository.EstadoFilterUnknown | src/infrastructure/repository/createProductsRepository.py:90-94 | "activo" adds no filter |
| ProductRepository.FindById | src/infrastructure/repository/createProductsRepository.py:151-160 | the first row with that id, or None exactly when there is none |
| ProductRepository.StatusUpdated | src/infrastructure/repository/createProductsRepository.py:161-167 | `estado` is set, the update date is given or `now`, and the updater changes only when given; every other field is unchanged |
| ProductRepository.StatusUpdateIdempotent | src/infrastructure/repository/createProductsRepository.py:161-167 | repeating the same update gives the same row |
| ProductRepository.ImportFrom | src/infrastructure/repository/createProductsRepository.py:187-216 | created + skipped equals the number of products looked at |
| ProductRepository.ImportFromCodes | src/infrastructure/repository/createProductsRepository.py:190-195 | every written code is non-empty, not among the existing codes and not seen earlier; written codes are pairwise distinct |
| ProductRepository.ImportSound | src/infrastructure/repository/createProductsRepository.py:187-216 | over a whole batch, created + skipped = len(products); created codes are new and distinct |
| ProductRepository.FirstOccurrenceWins | src/infrastructure/repository/createProductsRepository.py:192-195 | of two products with the same new code, the first is created and the second skipped |
| ProductRepository.ProductStore.constructor | src/infrastructure/repository/createProductsRepository.py:18-19 | the store starts on the given rows with no commits |
| ProductRepository.ProductStore.CreateProduct | src/infrastructure/repository/createProductsRepository.py:21-44 | the stamped product is appended and committed once |
| ProductRepository.ProductStore.UpdateProductStatus | src/infrastructure/repository/createProductsRepository.py:144-171 | an unknown id gives None and changes nothing; otherwise exactly that row becomes `StatusUpdated` and commits once |
| ProductRepository.ProductStore.ImportProducts | src/infrastructure/repository/createProductsRepository.py:173-219 | the rows gain exactly the `ImportFrom` rows, and the counts are its counts; the store commits exactly when something was created; an empty batch does nothing |
| WhatsAppClient.NewClient | src/infrastructure/repository/whatsappClientRepository.py:11-14 | the URL loses exactly its trailing "/" characters; the token is kept |
| WhatsAppClient.TrailingSlashesIgnored | src/infrastructure/repository/whatsappClientRepository.py:13 | any number of trailing slashes give the same client |
| WhatsAppClient.NewClientIdempotent | src/infrastructure/repository/whatsappClientRepository.py:13 | normalising an already normalised URL keeps it |
| WhatsAppClient.RequestFor | src/infrastructure/repository/whatsappClientRepository.py:23-28 | both sends POST to url + "/messages" with "Bearer " + token and a 10 s timeout |
| WhatsAppClient.TextPayload | src/infrastructure/repository/whatsappClientRepository.py:17-22 | the text envelope has exactly the four keys and the recipient as `to` |
| WhatsAppClient.MappedButtons | src/infrastructure/repository/whatsappClientRepository.py:39-42 | at most three reply buttons, all of them when there are at most three, each made from the button at the same position |
| WhatsAppClient.ButtonsPayload | src/infrastructure/repository/whatsappClientRepository.py:44-53 | the button envelope has exactly the four keys and the recipient as `to` |
| WhatsAppClient.TextPayloadShape | src/infrastructure/repository/whatsappClientRepository.py:17-22 | the text envelope has exactly the product "whatsapp", the recipient, type "text" and the body |
| WhatsAppClient.ButtonsTruncated | src/infrastructure/repository/whatsappClientRepository.py:39-53 | the interactive "button" envelope carries the body and exactly the first min(3, n) buttons, in order, as reply buttons |
| WhatsAppTemplates.BuildListMessage | src/app/utils/whatsapp_template_utils.py:40-45 | the envelope has exactly the four keys, the recipient as `to` and an `interactive` dict |
| WhatsAppTemplates.ListMessageShape | src/app/utils/whatsapp_template_utils.py:11-45 | the list envelope: "whatsapp", `to`, "interactive"; type "list", the body, the button text and the sections unchanged; a header exactly when header text is given and non-empty, likewise the footer |
| WhatsAppTemplates.RowFor | src/app/utils/whatsapp_template_utils.py:65-71 | a row has an id and a title, perhaps a description, and nothing else; every value is a string |
| WhatsAppTemplates.RowDefaults | src/app/utils/whatsapp_template_utils.py:62-71 | a missing id is the 1-based index; a missing title is "Item idx"; the description is present exactly when its attribute is given and the item's value for it is truthy, and is that value's `str()` |
| WhatsAppTemplates.SectionsFromItems | src/app/utils/whatsapp_template_utils.py:61-74 | corrected: exactly one section with the given title, and one row per item in input order, dicts and objects alike |
| WhatsAppTemplates.BuildSectionsFromItems | src/app/utils/whatsapp_template_utils.py:48-74 | as written: raises exactly when some item is a dict; otherwise it returns the sections `SectionsFromItems` describes |
| WhatsAppTemplates.DictItemExample | src/app/utils/whatsapp_template_utils.py:64-65 | `[{"id": "1", "title": "x"}]` holds a dict, so the code as written raises on it, while the intended result is one section with the row `{"id": "1", "title": "x"}` |
| EnvFile.IndexOf | src/infrastructure/data/createTable.py:41 | the position of the first "=" (or the length): every earlier character differs from it |
| EnvFile.CleanValue | src/infrastructure/data/createTable.py:44 | the cleaned value is stripped |
| EnvFile.QuotedValue | src/infrastructure/data/createTable.py:44 | a double-quoted value loses its quotes |
| EnvFile.ParseEnvLine | src/infrastructure/data/createTable.py:38-44 | no entry exactly for a blank line, a "#" line or one without "="; the key and the value are stripped; the key holds no "=" |
| EnvFile.SplitAtFirstEquals | src/infrastructure/data/createTable.py:42-44 | "k=v" splits at the first "=", so the value may itself contain "=" |
| EnvFile.Apply | src/infrastructure/data/createTable.py:45-46 | existing variables are never overwritten; an empty key is never added |
| EnvFile.Load | src/infrastructure/data/createTable.py:37-46 | loading keeps every variable already set, never adds the empty key, and adds a key only when some line of the file assigns it |
| EnvFile.LoadKeepsExisting | src/infrastructure/data/createTable.py:37-46 | loading a file keeps every variable already set |
| EnvFile.FirstAssignmentWins | src/infrastructure/data/createTable.py:45-46 | the first assignment of a key in the file wins |
| EnvFile.FirstAssigningLineWins | src/infrastructure/data/createTable.py:37-45 | a variable not set beforehand gets the value of the first line anywhere in the file that assigns it |
| EnvFile.Environment.LoadEnvFileSimple | src/infrastructure/data/createTable.py:37-46 | the loop leaves the environment equal to `Load` over the file's lines |
| EnvFile.ResolveDatabaseUrl | src/infrastructure/data/createTable.py:58-63 | a non-empty explicit URL takes precedence over DATABASE_URL; an empty result after trimming raises the ValueError; a returned URL is stripped and non-empty |
| EnvFile.BlankExplicitUrlFails | src/infrastructure/data/createTable.py:58-63 | a blank explicit URL fails, even if DATABASE_URL is set |
| RepositoryImpl.MessageRepositoryImpl.constructor | src/infrastructure/repository_impl.py:4-5 | a new message repository is empty |
| RepositoryImpl.MessageRepositoryImpl.SaveMessage | src/infrastructure/repository_impl.py:7-8 | appends at the end; earlier messages are unchanged |
| RepositoryImpl.MessageRepositoryImpl.GetMessages | src/infrastructure/repository_impl.py:10-11 | all saved messages, in insertion order |
| RepositoryImpl.UserRepositoryImpl.constructor | src/infrastructure/repository_impl.py:14-15 | a new user repository is empty |
| RepositoryImpl.UserRepositoryImpl.SaveUser | src/infrastructure/repository_impl.py:17-18 | stores under the user's id, overwriting; other ids are untouched |
| RepositoryImpl.UserRepositoryImpl.GetUser | src/infrastructure/repository_impl.py:20-21 | the stored user for the id, or None when absent |
| RepositoryImpl.SaveThenGet | src/infrastructure/repository_impl.py:7-11 | two saves then a get return the old messages, then the two, in order |
| RepositoryImpl.SaveTwiceThenGet | src/infrastructure/repository_impl.py:17-21 | the last user saved for an id is the one returned |
| Validators.OptionalText | src/domain/entities/proveedorEntity.py:34-39 | None or blank gives None; otherwise the trimmed, non-empty value |
| Validators.RequiredText | src/domain/entities/egresoEntity.py:53-58 | accepted exactly when present and non-blank; the value is trimmed; otherwise "Campo requerido" |
| Validators.NonNegative | src/domain/entities/productsEntity.py:45-53 | a missing amount is 0; accepted exactly when not negative; otherwise the ValueError message |
| ProductEntity.Validate | src/domain/entities/productsEntity.py:16-71 | valid exactly for a non-empty barcode, a non-blank name and prices, cost and margin that are not negative; the name is trimmed; a missing price is 0; a missing margin stays missing; `estado` defaults to true; the error list names each failing field: codigo_barras and nombre with `min_length` 1, precio_venta and costo with the negative-price message, margen with the negative-margin message |
| ProductEntity.RevalidateUnchanged | src/domain/entities/productsEntity.py:77-82 | `from_model` on a validated product gives it back unchanged |
| ProductEntity.NewProductActive | src/domain/entities/productsEntity.py:73-74 | a product created without `estado` is active |
| ProductEntity.AssignNombre | src/domain/entities/productsEntity.py:34-43 | reassigning the name validates and trims it, and changes only the name |
| ProductEntity.AssignMatchesConstruction | src/domain/entities/productsEntity.py:34-38 | assigning a name agrees with constructing the product with it |
| EgresoEntity.Validate | src/domain/entities/egresoEntity.py:19-65 | valid exactly when the amount is not negative and the user and phone are present, non-blank and within their bounds; descripcion and proveedor become None when blank; the error list names each failing field: monto when negative, whatsapp_user_id and phone_number with "Campo requerido" when missing or blank or with `max_length` when too long, proveedor when too long |
| EgresoEntity.RevalidateUnchanged | src/domain/entities/egresoEntity.py:67-69 | `from_model` on a validated expense gives it back unchanged |
| CierreCajaEntity.Amount | src/domain/entities/cierreCajaEntity.py:43-49 | a missing amount is 0; otherwise it is kept, sign included |
| CierreCajaEntity.Validate | src/domain/entities/cierreCajaEntity.py:17-63 | valid exactly when the closing user is non-blank and at most 255 characters; amounts default to 0, with no sign check; observaciones become None when blank |
| CierreCajaEntity.NegativeAmountsAccepted | src/domain/entities/cierreCajaEntity.py:43-49 | a negative difference is accepted and kept |
| CierreCajaEntity.OmittedAmountsZero | src/domain/entities/cierreCajaEntity.py:19-24 | omitted amounts are 0 |
| CierreCajaEntity.RevalidateUnchanged | src/domain/entities/cierreCajaEntity.py:65-68 | `from_model` on a validated closing gives it back unchanged |
| ResumenVentaDiariaEntity.Count | src/domain/entities/resumenVentaDiariaEntity.py:23 | the transaction count defaults to 0 and must not be negative |
| ResumenVentaDiariaEntity.Validate | src/domain/entities/resumenVentaDiariaEntity.py:17-54 | valid exactly when the totals and count are not negative and the user is non-blank and bounded; each of the four negative totals is reported under its field with the negative-total message, a negative count under cantidad_transacciones, and the user check's error under its field |
| ResumenVentaDiariaEntity.TotalsNonNegative | src/domain/entities/resumenVentaDiariaEntity.py:33-47 | every total of a valid summary is at least 0 |
| ResumenVentaDiariaEntity.RevalidateUnchanged | src/domain/entities/resumenVentaDiariaEntity.py:56-59 | `from_model` on a validated summary gives it back unchanged |
| ProveedorEntity.Validate | src/domain/entities/proveedorEntity.py:16-39 | valid exactly when the name is non-blank and within 255 characters, and phone and email are within bounds; the name is trimmed; blank phone and email become None; a blank name is "El nombre es requerido" |
| ProveedorEntity.RevalidateUnchanged | src/domain/entities/proveedorEntity.py:41-43 | `from_model` on a validated supplier gives it back unchanged |
| ContabilidadCategoriaEntity.Validate | src/domain/entities/contabilidadCategoriaEntity.py:18-47 | valid exactly when the name is non-blank and within 150 characters, and the creating user is non-blank and bounded; descripcion becomes None when blank; `activa` defaults to true |
| ContabilidadCategoriaEntity.RevalidateUnchanged | src/domain/entities/contabilidadCategoriaEntity.py:49-52 | `from_model` on a validated category gives it back unchanged |
| CategoryEntity.Validate | src/domain/entities/categoryEntity.py:15-33 | valid exactly when the name is non-blank; the name is trimmed; a blank name is rejected by the minimum length |
| CategoryEntity.NameOnlyDefaults | src/domain/entities/categoryEntity.py:15-24 | with only a name, `estado` is true and the optional fields are None |
| CategoryEntity.AssignNombre | src/domain/entities/categoryEntity.py:26-33 | reassignment trims and validates the name, and changes only it |
| CategoryEntity.AssignMatchesConstruction | src/domain/entities/categoryEntity.py:26-29 | assigning a name agrees with constructing the category with it |
| CategoryEntity.RevalidateUnchanged | src/domain/entities/categoryEntity.py:35-37 | `from_model` on a validated category gives it back unchanged |
| Outbound.Gateway.Send | src/infrastructure/repository/whatsappClientRepository.py:16-35 | a send is logged and takes the next scripted outcome |

## Left out

- HTTP posting, `raise_for_status`, timeouts and logging in the WhatsApp client are network I/O. A send is an `Outbound` call whose outcome the caller scripts.
- Webhook: the 503 branch of `_send_message` (src/app/services/webhook_service.py:181-185) is left out. `handle_webhook` checks the client before any send, so the private helpers are modelled with a client present.
- Webhook: `setup_webhook_logger`, `build_whatsapp_client` and the log lines are file and environment I/O.
- Webhook: the contact name is computed and then unused. It is modelled, but not threaded into the routing.
- Webhook: a `from` value that is a truthy non-string (a number, say) is modelled as a malformed payload that raises. Python raises only for a list or dict sender, on the set-membership test.
- Webhook: `ClienteRequest` DTO validation and `ClienteEntity` are not part of this model. The reply's lines go straight to the customer service.
- Clientes.Create: `ClienteEntity` (built at src/domain/services/ClienteService.py:26-30) and the `ClienteRequest` DTO are not part of this model. Both are taken to pass nombre, telefono and email through unchanged. This also applies to MessageHandler.CreateClienteFromText (the request built at src/app/services/message_handler_service.py:71) and to Webhook.ContinueFlow.
- ProductRepository.ProductStore.CreateProduct: the ORM `Product` model is not part of this model. Its columns are assumed to match the fields the repository passes, and the unique constraint on `codigo_barras` is not modelled, so a duplicate code is appended rather than refused.
- Requests are handled one at a time. The process-wide pending set is shared without a lock, and that concurrency is not modelled.
- WhatsAppTemplates: an item's attribute values are given by their `str()` form and their truthiness. `str()` and `bool()` of arbitrary objects are not modelled.
- Clientes and Proveedores:
  - search results are sets, so the ordering by `nombre` is left out;
  - ILIKE `%` and `_` in the term are treated literally;
  - matching is ASCII-case-insensitive substring matching.
- ProductRepository:
  - the existing codes are computed from the stored rows, which matches the query restricted to the batch's codes;
  - `list_products`, `get_product` and `update_product` are ORM pass-throughs, and are left out;
  - the display names that `_to_entity` joins in are left out.
- RepositoryImpl.MessageRepositoryImpl.GetMessages: returns a copy of the sequence, so it does not capture that Python returns the live list, which callers may mutate.
- EnvFile: the `python-dotenv` path and the candidate-file search (src/infrastructure/data/createTable.py:12-34) are file-system I/O. The file's content is a parameter.
- Strings: `strip`, `lower`, `upper`, `splitlines` and `isdigit` are ASCII approximations of Python's Unicode behaviour.
- Decimal parsing of arbitrary values is a library call. Amounts are integers (cents), and conversion is taken to succeed.
- ProductEntity.Validate: `categoria_id` is already an integer in the model, so the `int(v)` conversion of other values is not modelled.
- Fresh ids (`uuid4`) and clocks (`datetime.now`) are parameters.
- FastAPI controllers, `main.py`, SQLAlchemy models and sessions, DTOs and interfaces, and the thin pass-through services are framework wiring. They are not part of this model.

## Findings

| source | as written | input that shows it | evidently intended | confidence | as-written member | corrected member |
|---|---|---|---|---|---|---|
| src/app/services/webhook_service.py:190 | `resp.status_code if resp else ''` and `resp.text if resp else exc` test the truthiness of a `requests.Response`. That truthiness is `resp.ok`, which is false for every status of at least 400, so the detail always drops the status and the body. The webhook model (`SendFailure`) uses this detail | an HTTPError with a 404 response and body `{"error":{}}` gives "WhatsApp API error : 404 Client Error" | "WhatsApp API error 404: {"error":{}}", with the status and the response text | not executed | Webhook.ErrorDetailAsWritten | Webhook.ErrorDetail |
| src/app/utils/whatsapp_template_utils.py:64-65 | for a dict item `get_val` is the bound method `item.get`, and `get_val(item, id_attr, idx)` passes it three arguments; `dict.get` takes at most two, so every dict item raises TypeError | `items=[{"id": "1", "title": "x"}]` | `item.get(id_attr, idx)`, giving the row `{"id": "1", "title": "x"}` | not executed | WhatsAppTemplates.BuildSectionsFromItems | WhatsAppTemplates.SectionsFromItems |
