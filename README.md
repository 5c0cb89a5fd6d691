# Floreboard in Dafny

Floreboard is an iOS app for a flower shop. It keeps an inventory of flower records (stock on hand,
initial stock, cost, retail price, category, meaning, culture tags). It asks an AI service for
arrangement designs that use that stock. It keeps the designs in a history, and executing a draft
design deducts its flowers from the inventory. A settings screen chooses the AI provider and stores its
key, and every text goes through an English/Chinese localization table.

This project models the app's bookkeeping and decision logic:

- the records and constant tables (`models.dfy`, `seed.dfy`);
- the inventory and history services with their persistence slots, including the name-matching deduction
  pass (`inventory.dfy`, `history.dfy`);
- the configuration store that splits the API key from the rest of the configuration (`config.dfy`);
- the AI client's guards, reply mapping, backend choice, the Aliyun poll and the OpenRouter reply parser
  (`json.dfy`, `ai_service.dfy`);
- the localization manager (`localization.dfy`);
- the three view models (`view_models.dfy`);
- the decision logic of the history, home and inventory screens (`history_views.dfy`, `dashboard.dfy`,
  `inventory_views.dfy`).

Some model choices:

- Objects whose fields the app updates in place are classes: `InventoryService`, `HistoryService`,
  `ConfigStore`, `LocalizationManager`, `InventoryViewModel`, `DesignViewModel` and `SettingsViewModel`.
- Each UserDefaults or Keychain slot they write is an `Option` field.
- The two loops of `deductInventory` are methods proved against the functions `Deduct` and `FirstMatch`.
- The Aliyun poll is a bounded loop proved against `PollOutcome`.
- Network replies, clocks and generated identifiers are parameters.

## Model

| member | source | states |
|---|---|---|
| Models.NewFlower | Floreboard/Models.swift:99-113 | The initializer copies each argument into its field, and every other optional field (usage, tags, timestamps, sync fields) starts out nil. |
| Models.DefaultRequest | Floreboard/Models.swift:139-150 | A new request has occasion home, recipient self and style fresh, and every optional preference is nil. |
| Models.DesignFlowerItem.Id | Floreboard/Models.swift:153 | An item's id is its flower name. |
| Models.SameNameSameId | Floreboard/Models.swift:153 | Two plan items have the same id exactly when they name the same flower. |
| Models.DefaultConfig | Floreboard/Models.swift:202-211 | The default configuration has an empty key, the Aliyun compatible endpoint, qwen-plus, qwen-vl-max and wanx-v1, no image endpoint, budget 500, alert threshold 5 and low-stock threshold 10. |
| Models.Providers | Floreboard/Models.swift:236-282 | There are five presets with pairwise distinct ids. The four real presets have distinct, non-empty endpoints. "custom" comes last and has no endpoint and no models. |
| Models.Mocks | Floreboard/Models.swift:288-301 | Four sample records with the given ids, no usage and no tags; the first is a "Red Rose" with 50 in stock. |
| Models.DesignStatusCases | Floreboard/Models.swift:73-76 | A design status is a draft or completed, and the two cases are different. |
| Seed.WithTags | Floreboard/Services/InitialInventory.swift:170-174 | The copy has the given culture tags and agrees with the original on every other field. |
| Seed.InitialData | Floreboard/Services/InitialInventory.swift:11-164 | The seed table builds one record per row, in row order, each with its generated id. |
| Seed.SeedRecordsWellFormed | Floreboard/Services/InitialInventory.swift:11-164 | Every seed record starts with its whole, positive initial stock on hand and nothing used. It has at least one culture tag, and a positive unit cost below its retail price. |
| Seed.SeedNamesDistinct | Floreboard/Services/InitialInventory.swift:11-164 | No two seed records share a name. |
| Seed.SeedNamesOverlap | Floreboard/Services/InitialInventory.swift:121-150 | Yet the name of record 25 ("牡丹") lies inside that of record 31 ("洋牡丹"), ignoring case. |
| Prelude.CIContainsEmpty | Floreboard/Services.swift:117-118 | `localizedCaseInsensitiveContains` with an empty argument is false, and the empty string contains no non-empty one. |
| Inventory.NameMatches | Floreboard/Services.swift:115-119 | The test is case-insensitive equality or containment either way; names equal up to case always match. |
| Inventory.NameMatchesIsContainment | Floreboard/Services.swift:115-119 | The match test holds exactly when both names are empty or either name contains the other, ignoring case. The equality clause matters only for two empty names, because no string contains the empty one. |
| Inventory.EmptyItemNameMatchesOnlyEmptyName | Floreboard/Services.swift:115-119 | An item with an empty name matches a record exactly when the record's name is empty too. |
| Inventory.EmptyRecordNameMatchesOnlyEmptyItem | Floreboard/Services.swift:115-119 | A record with an empty name matches an item exactly when the item's name is empty too. |
| Inventory.FirstMatch | Floreboard/Services.swift:115-119 | The found index is the earliest record that matches the item's name. No result means that no record matches. |
| Inventory.FirstMatchIs | Floreboard/Services.swift:115-119 | A matching record with no match before it is the one found. |
| Inventory.EarlierMatchWins | Floreboard/Services.swift:115-119 | A matching record makes every later record unreachable for that item, whether the later match would be exact or not. |
| Inventory.FirstMatchSameNames | Floreboard/Services.swift:115-119 | Matching looks at the names alone. Lists with the same ids and names send every item to the same index. |
| Inventory.Deducted | Floreboard/Services.swift:120-125 | One hit changes only the stock fields. The quantity is clamped at zero and never rises for a non-negative count. The count is added to `totalUsed` (nil counting as 0), and the timestamp is set. |
| Inventory.Deduct | Floreboard/Services.swift:111-130 | The pass keeps every record's id and name in place, and reports at most one changed record per item. |
| Inventory.HitSumBounds | Floreboard/Services.swift:113-130 | A record no item hits has a zero hit sum. With non-negative counts, every hit sum is non-negative. |
| Inventory.DeductApplies | Floreboard/Services.swift:113-130 | Each record ends as its own hits leave it when applied one after another in item order. Each item hits the record it first matches in the running copy. |
| Inventory.DeductRecord | Floreboard/Services.swift:113-130 | A record no item hits is unchanged. A record that is hit ends with its usage raised by the sum of its hits' counts, its stock clamped and its timestamp set. |
| Inventory.DeductChanged | Floreboard/Services.swift:113-130 | The changed list has, for each matched item in order, the record it hit with only quantity and `totalUsed` changed and `updatedAt` set to the clock reading. Unmatched items add nothing. |
| Inventory.DeductNoMatch | Floreboard/Services.swift:113-130 | When no item matches any name, the pass changes nothing and reports nothing. |
| Inventory.NothingChangedNothingMoved | Floreboard/Services.swift:133-136 | An empty changed list means that the records are as they were, so skipping the commit loses nothing. |
| Inventory.DeductTwice | Floreboard/Services.swift:107-138 | Running the same items a second time hits the same records again. A record hit by a total count of `sum` has `2 * sum` added to its usage. |
| Inventory.DeductKeepsStockNonNegative | Floreboard/Services.swift:121-123 | A non-negative inventory stays non-negative whatever the counts. |
| Inventory.DeductMonotone | Floreboard/Services.swift:121-124 | With non-negative counts, a quantity only goes down and usage only goes up. |
| Inventory.RedRoseScenario | Floreboard/Services.swift:107-138 | A "red rose" item for 5 hits the "Red Rose" record of 50. Its stock becomes 45, its usage 5, and one record is reported changed. |
| Inventory.EmptyItemNameHitsNothing | Floreboard/Services.swift:107-138 | A plan line with an empty name changes no record and reports nothing when every record has a name. |
| Inventory.NoExactMatchPrecedence | Floreboard/Services.swift:115-119 | An item named exactly like the second record still hits an earlier record whose name it contains. |
| Inventory.SeedCrossHit | Floreboard/Services.swift:115-119 | In the seed inventory, an item "洋牡丹" hits exactly record 25 ("牡丹"), the first record whose name it contains, and never its own exact record 31. |
| Prelude.FirstIndexOf | Floreboard/Services.swift:80 | The first element with the key, or no result exactly when no element has it. Both services look records and designs up by id with it (the history at line 154). |
| Inventory.RemoveId | Floreboard/Services.swift:87 | The remaining records are exactly those whose id differs. |
| Inventory.ReplaceFirstById | Floreboard/Services.swift:79-84 | The functional effect of `updateFlower` on the list; `ReplaceFirstByIdSpec` and `ReplaceFirstByIdIdempotent` state what it does. |
| Inventory.ReplaceFirstByIdSpec | Floreboard/Services.swift:79-84 | An update keeps the length. It replaces the first record with the id and leaves every other index as it was. Without such a record it changes nothing. |
| Inventory.ReplaceFirstByIdIdempotent | Floreboard/Services.swift:79-84 | Updating twice with the same record equals updating once. |
| Inventory.RemoveAfterAppend | Floreboard/Services.swift:74-89 | Adding a record with a fresh id and then deleting that id restores the list. |
| Inventory.RemoveIdSpec | Floreboard/Services.swift:86-89 | After a delete no record has the id, and the rest keep their order. |
| Inventory.StockMarker | Floreboard/Services.swift:100-101 | The LOW STOCK marker is present exactly when the quantity is at or below the threshold. |
| Inventory.ListingLines | Floreboard/Services.swift:98-105 | The listing has one line per record, in record order. |
| Inventory.ListingLineMarker | Floreboard/Services.swift:99-103 | A line opens with "- " and the record's name. The marker follows the quantity exactly when the quantity is at or below the threshold. |
| Inventory.InventoryListString | Floreboard/Services.swift:98-105 | The listing is the lines of `ListingLines` joined by newlines; `ListingHasEveryLine` states what the joined string holds. |
| Inventory.ListingHasEveryLine | Floreboard/Services.swift:98-105 | The listing of no records is empty; otherwise it opens with the first record's line and contains every record's line. |
| Prelude.JoinContainsLines | Floreboard/Services.swift:104 | `joined(separator:)` of no lines is empty; otherwise the result opens with the first line and contains every line. |
| Inventory.InventoryService.GetInventoryListString | Floreboard/Services.swift:98-105 | The service's listing is empty with no records and contains the line of each current record. |
| Inventory.InventoryService.constructor | Floreboard/Services.swift:58-72 | Start-up holds the stored list when one decodes, otherwise the seed table, and leaves the store as it was. |
| Inventory.InventoryService.LoadInventory | Floreboard/Services.swift:62-72 | Loading gives the stored list when one decodes, otherwise the seed table. |
| Inventory.InventoryService.SaveInventory | Floreboard/Services.swift:91-95 | The store holds the current list. |
| Inventory.InventoryService.AddFlower | Floreboard/Services.swift:74-77 | The record is appended and the new list is stored. |
| Inventory.InventoryService.UpdateFlower | Floreboard/Services.swift:79-84 | The first record with the id is replaced, and the list is stored only when such a record existed. |
| Inventory.InventoryService.DeleteFlower | Floreboard/Services.swift:86-89 | Every record with the id is removed and the list is stored. |
| Inventory.InventoryService.DeductInventory | Floreboard/Services.swift:107-138 | The method reports the changed records of the pass over the list. When that report is non-empty, the list becomes the pass's result and is stored. When it is empty, neither the list nor the store changes. |
| Inventory.DeductPass | Floreboard/Services.swift:111-130 | The loop over the items ends with the running copy and the changed list that `Deduct` specifies. |
| Inventory.FindFirstMatch | Floreboard/Services.swift:115-119 | The scan returns the earliest matching index, or none exactly when no record matches, the same as `FirstMatch`. |
| History.RemoveDesign | Floreboard/Services.swift:177 | The remaining designs are exactly those whose id differs. |
| History.Upsert | Floreboard/Services.swift:152-160 | The saved design is in the result, which is as long as before or one longer. |
| History.UpsertSpec | Floreboard/Services.swift:152-160 | An existing id is replaced in place and the length is kept. A new id goes in front and the rest follow unchanged. Afterwards, a lookup of the id finds the saved design. |
| History.UpsertIdempotent | Floreboard/Services.swift:152-160 | Saving the same design twice equals saving it once. |
| History.RemoveAfterInsert | Floreboard/Services.swift:152-179 | Saving a design with a new id and then deleting that id gives back the list. |
| History.RemoveDesignSpec | Floreboard/Services.swift:176-179 | After a delete no design has the id, and the rest keep their order. |
| History.Executed | Floreboard/Services.swift:169-171 | The saved copy is completed and stamped with the execution time, and agrees with the design on every other field. |
| History.Execute | Floreboard/Services.swift:162-174 | Executing keeps every record's id and name in place, and a draft's completed copy is in the history afterwards. |
| History.ExecuteFlowers | Floreboard/Services.swift:162-174 | Executing a draft leaves the inventory as the deduction pass does, whichever way the commit test goes. |
| History.ExecuteCompletedIsNoOp | Floreboard/Services.swift:163 | Executing a completed design changes nothing. |
| History.ExecuteStoredCopyIsNoOp | Floreboard/Services.swift:162-174 | After a draft is executed, the stored copy is completed, so executing the stored copy again changes nothing. |
| History.ExecuteCapturedDraftTwice | Floreboard/Services.swift:162-174 | The guard reads the argument, so executing the same captured draft twice deducts it twice. Every record it hits has twice the hit sum added to its usage. The history then holds the second execution. |
| History.UpsertTwice | Floreboard/Services.swift:152-160 | Saving two completed copies of one design leaves the history as if only the second had been saved. |
| History.HistoryService.constructor | Floreboard/Services.swift:181-187 | Start-up holds the stored designs when they decode, otherwise none. |
| History.HistoryService.Persist | Floreboard/Services.swift:189-193 | The store holds the current designs. |
| History.HistoryService.SaveDesign | Floreboard/Services.swift:152-160 | The history becomes the upsert of the design, and is stored. |
| History.HistoryService.DeleteDesign | Floreboard/Services.swift:176-179 | Every design with the id is removed, and the history is stored. |
| History.HistoryService.ExecuteDesign | Floreboard/Services.swift:162-174 | A completed design leaves both services and both stores alone. A draft runs the inventory's deduction and saves a completed, time-stamped copy. The two lists end as `Execute` specifies. |
| Config.Current | Floreboard/AIService.swift:29-50 | The configuration read back is the stored one, or the default when none is stored. Its key is the keychain's when the keychain holds one. |
| Config.BaseConfig | Floreboard/AIService.swift:43-50 | The stored configuration when one decodes, otherwise the default one. |
| Config.Update | Floreboard/AIService.swift:54-68 | The stored configuration is the new one with its key blanked. A non-empty key replaces the keychain entry when the keychain takes it, and leaves no entry when the add fails; an empty key leaves the entry alone. |
| Config.CurrentOfEmptyStores | Floreboard/AIService.swift:43-50 | With nothing stored, the current configuration is the default one. |
| Config.PlainStoreHoldsNoKey | Floreboard/AIService.swift:58-66 | The stored configuration never carries a key. |
| Config.ReadBackAfterUpdate | Floreboard/AIService.swift:29-68 | After saving a configuration with a key that the keychain takes, reading back gives exactly that configuration. |
| Config.FailedKeychainWriteLosesKey | Floreboard/KeychainManager.swift:8-24 | When the keychain refuses a non-empty key, the old entry is already deleted: no key is stored, and the configuration read back has an empty key. |
| Config.EmptyKeyKeepsStoredKey | Floreboard/AIService.swift:54-68 | Saving with an empty key never touches the keychain, so the configuration read back carries the key stored before. |
| Config.UpdateWithCurrentIsStable | Floreboard/AIService.swift:29-68 | Saving what was read back, with the keychain taking the key, changes nothing that can be read. |
| Config.UpdateIdempotent | Floreboard/AIService.swift:54-68 | Saving twice is the same as saving once with the second keychain outcome. |
| Config.ConfigStore.CurrentConfig | Floreboard/AIService.swift:29-37 | The store's `currentConfig` is `Current` of its two slots. |
| Config.ConfigStore.UpdateConfig | Floreboard/AIService.swift:54-68 | The two slots become `Update` of the old slots, the new configuration and the keychain's outcome. |
| JsonTree.Field | Floreboard/AIService.swift:609 | A dictionary lookup finds a value exactly when the key is present, and the value is the one stored. |
| JsonTree.AsObject | Floreboard/AIService.swift:609-611 | The cast succeeds exactly on an object, and gives its fields. |
| JsonTree.AsString | Floreboard/AIService.swift:618 | The cast succeeds exactly on a string, and gives its text. |
| JsonTree.AsObjectArray | Floreboard/AIService.swift:609 | The cast succeeds exactly on an array of objects, and gives their fields in order. |
| JsonTree.AsStringArray | Floreboard/AIService.swift:625 | The cast succeeds exactly on an array of strings, and gives them in order. |
| JsonTree.CastsExclusive | Floreboard/AIService.swift:615-627 | A non-empty array of objects is not an array of strings, so the two image forms never both apply. |
| AI.StatusFailure | Floreboard/AIService.swift:360-364 | Only status 200 passes. Any other status fails with its code, and a reply that is not HTTP fails with 500. |
| AI.TierFor | Floreboard/AIService.swift:291-304 | Each tier covers one interval of budgets, with upper bounds included: up to 200, 500, 1000, 2000, and above. |
| AI.TierMonotone | Floreboard/AIService.swift:291-304 | A larger budget never gets a lower tier. |
| AI.RequestTier | Floreboard/AIService.swift:307 | A request without a budget gets the simple tier. Otherwise the tier follows its budget. |
| AI.TierExamples | Floreboard/AIService.swift:291-304 | Budgets of 150, 500 (the default), 750 and 5000 get the simple, standard, premium and grand-luxury tiers. |
| AI.PlanItems | Floreboard/AIService.swift:113-116 | The mapping gives one plan item per reply item, each with a unit cost of 0. |
| AI.PlanItemsInvertible | Floreboard/AIService.swift:113-116 | Projecting the plan items back gives the reply's list, so the mapping loses nothing. |
| AI.TextDraft | Floreboard/AIService.swift:118-135 | The draft takes the given id, the request's id and the time. It carries the reply's fields, with the estimated cost or 0 as its total. Its profit fields are 0, it has no image, and its status is draft. |
| AI.VisionDraft | Floreboard/AIService.swift:240-256 | The image draft carries no reasoning. |
| AI.VisionDraftDropsReasoning | Floreboard/AIService.swift:240-256 | The image draft is the text draft without reasoning, and the two are equal when the reply gives none. |
| AI.ChatContent | Floreboard/AIService.swift:333-380 | An invalid URL fails first, a failed call with a transport error, a status other than 200 with that status (500 when not HTTP), and an undecodable body with a decoding error. Success happens exactly for an answered 200 whose body decodes, and gives the first choice's content or "{}". |
| AI.StripFences | Floreboard/AIService.swift:431-433 | The two `replacingOccurrences` calls; `StripFencesWithoutBackticks` and `StripFencesUnwraps` state what they do. |
| AI.VisionContent | Floreboard/AIService.swift:382-436 | The vision call fails exactly as the chat call does, and on success gives the chat call's content with the fences stripped. |
| AI.StripFencesWithoutBackticks | Floreboard/AIService.swift:431-435 | Content without a backtick comes through the cleanup unchanged. |
| AI.StripFencesUnwraps | Floreboard/AIService.swift:431-435 | A body wrapped in a "```json" fence comes out bare. |
| AI.GenerateFlowerPlan | Floreboard/AIService.swift:71-136 | A missing key fails first, then any failure of the chat call, then a reply that does not decode. Success happens exactly when the call succeeds and its content decodes, and gives `TextDraft` of the decoded reply. |
| AI.GenerateDesignFromImage | Floreboard/AIService.swift:139-257 | A missing key fails first, then an image that does not encode, then any failure of the vision call, then a reply that does not decode. Success happens exactly when all of these pass, and gives `VisionDraft` of the decoded reply, a draft without reasoning. |
| AI.ChooseBackend | Floreboard/AIService.swift:443-456 | A model containing "wanx" in any case selects the Aliyun task path. Failing that, an endpoint containing "openrouter" selects the chat path. Anything else selects `/images/generations`. |
| AI.DefaultConfigUsesAliyun | Floreboard/AIService.swift:446-447 | The default configuration takes the Aliyun task path. |
| AI.ModelTestComesFirst | Floreboard/AIService.swift:446-452 | An upper-case "WANX" model on an OpenRouter endpoint still takes the Aliyun path. |
| AI.EndpointTestIsCaseSensitive | Floreboard/AIService.swift:451-452 | An upper-case OpenRouter host is not recognised and goes to `/images/generations`. |
| AI.ImageEndpoint | Floreboard/AIService.swift:443 | The image endpoint when one is set, otherwise the chat endpoint. |
| AI.FirstImageUrl | Floreboard/AIService.swift:492 | The result is the first element's URL, or "" when there is no element or it has no URL. |
| AI.Base64OnlyGivesEmpty | Floreboard/AIService.swift:492 | A reply whose first element carries only base64 data gives "". |
| AI.FirstImageUrlIgnoresBase64 | Floreboard/AIService.swift:492 | The result depends on the URLs alone. |
| AI.DirectImage | Floreboard/AIService.swift:457-492 | An invalid URL fails first, a failed call with a transport error, a status other than 200 with that status, and an undecodable body with a decoding error. An answered 200 gives `FirstImageUrl` of the decoded data. |
| AI.PollOutcome | Floreboard/AIService.swift:535-568 | From 30 attempts on the poll times out with 408. A success is the first result URL of some SUCCEEDED reply among the attempts left. |
| AI.PollTask | Floreboard/AIService.swift:535-568 | The loop with its attempt counter returns what `PollOutcome` specifies from attempt 0. |
| AI.PollSkipsPending | Floreboard/AIService.swift:555-565 | Statuses other than SUCCEEDED and FAILED are skipped. |
| AI.PollDecidedAt | Floreboard/AIService.swift:556-560 | The first decided reply within 30 polls decides. SUCCEEDED gives its first result URL (or ""), and FAILED gives an error. |
| AI.PollTimesOut | Floreboard/AIService.swift:536-568 | Thirty undecided replies end in error 408. |
| AI.PollReadsThirtyAtMost | Floreboard/AIService.swift:536 | Replies after the thirtieth are never read. |
| AI.AliyunImage | Floreboard/AIService.swift:497-568 | A failed submission fails with a transport error, a status other than 200 with that status, and an undecodable task id with a decoding error. An accepted task gives `PollOutcome` of the polls from attempt 0. |
| AI.UrlEnd | Floreboard/AIService.swift:633 | The lazy `(.*?)\)` ends at the first ')' on the same line. |
| AI.MarkdownRoundTrip | Floreboard/AIService.swift:631-640 | For a markdown image `![alt](url)` placed after text without '!', the regular expression captures exactly its URL. |
| AI.NoBangNoMarkdown | Floreboard/AIService.swift:631-640 | Text without '!' holds no markdown image. |
| AI.MarkdownImageUrl | Floreboard/AIService.swift:631-639 | The leftmost match of the markdown pattern, as its capture; `MarkdownRoundTrip` and `NoBangNoMarkdown` state what it finds. |
| AI.ReadsTheFirstChoice | Floreboard/AIService.swift:609-611 | The parser reads the message of the first choice. |
| AI.NestedImageComesFirst | Floreboard/AIService.swift:615-621 | An `images[0].image_url.url` wins over everything else. |
| AI.StringImagesComeSecond | Floreboard/AIService.swift:625-627 | An array of strings gives its first element, whatever the content says. |
| AI.MarkdownComesThird | Floreboard/AIService.swift:631-640 | With no images, a markdown image in the content gives its URL. |
| AI.PlainUrlComesLast | Floreboard/AIService.swift:642-643 | With no images and no markdown, content that starts with "http" is returned with Unicode whitespace and newlines trimmed from both ends. |
| AI.LeadingSpaceRejected | Floreboard/AIService.swift:642-650 | The prefix test runs before trimming, so a URL after a leading space is rejected. |
| AI.UnreadableReplyFails | Floreboard/AIService.swift:606-650 | A reply that does not parse, or has no choices, fails. |
| AI.ImageFromMessage | Floreboard/AIService.swift:613-645 | Reading a message fails only with `imageEncodingFailed`; the lemmas above state the order of the four readings. |
| AI.OpenRouterImageFromReply | Floreboard/AIService.swift:606-650 | Reading a reply fails only with `imageEncodingFailed`; a reply with a first choice reads its message. |
| AI.OpenRouterImage | Floreboard/AIService.swift:572-650 | An invalid chat URL fails first, a failed call with a transport error, and a status other than 200 with that status. An answered 200 gives exactly what `OpenRouterImageFromReply` reads from the body. |
| AI.GenerateImage | Floreboard/AIService.swift:440-493 | A missing key fails first. Otherwise the result is that of the backend `ChooseBackend` selects. |
| AI.DefaultConfigImageIsPolled | Floreboard/AIService.swift:440-448 | With the default configuration and a key, the image comes from the Aliyun poll and from nothing else. |
| AI.MissingKeyFailsEverywhere | Floreboard/AIService.swift:74-75 | Without a key, the plan, the image design and the image generation all fail before anything is sent. |
| Localization.FromRaw | Floreboard/Localization.swift:11-16 | Only "en" and "zh" parse, each to the language whose raw value it is. |
| Localization.RawValueRoundTrip | Floreboard/Localization.swift:11-16 | Parsing a language's raw value gives the language back. |
| Localization.InitialLanguage | Floreboard/Localization.swift:34-44 | A saved language that parses wins. Otherwise the app starts in Chinese exactly when the device code (default "en") contains "zh". |
| Localization.NoDeviceCodeMeansEnglish | Floreboard/Localization.swift:41-42 | A device with no language code starts in English. |
| Localization.ChineseDeviceCode | Floreboard/Localization.swift:41-42 | A device code such as "zh-Hans" starts in Chinese. |
| Localization.Placeholder | Floreboard/Localization.swift:51 | A placeholder opens with "{{", closes with "}}", and holds exactly the name between them. |
| Localization.Lookup | Floreboard/Localization.swift:48 | A present key gives its entry, and a missing key gives the key itself. |
| Localization.Substitute | Floreboard/Localization.swift:50-52 | The placeholder loop over the arguments in order; `SubstituteUntouched` and `SubstituteSingle` state what it does. |
| Localization.Translate | Floreboard/Localization.swift:46-55 | Table by language, fallback to the key, then substitution; `MissingKeyIsItself`, `TableChoice` and `ApiErrorFillsCode` state what it gives. |
| Localization.MissingKeyIsItself | Floreboard/Localization.swift:46-55 | A missing key, with no arguments, translates to itself. |
| Localization.TableChoice | Floreboard/Localization.swift:47 | The Chinese table is read in Chinese and the English table otherwise. |
| Localization.SubstituteUntouched | Floreboard/Localization.swift:50-52 | A value that holds none of the named placeholders comes through unchanged. |
| Localization.SubstituteSingle | Floreboard/Localization.swift:50-52 | One placeholder and one argument naming it: the argument takes its place. |
| Localization.ErrorDescription | Floreboard/AIService.swift:661-666 | The four AI errors have a description. Decoding and transport failures have none. |
| Localization.ApiErrorFillsCode | Floreboard/AIService.swift:664 | An entry ending in the `{{code}}` placeholder gives its text followed by the status code. |
| Localization.ApiErrorMessageEn | Floreboard/Localization.swift:289 | In English, a status error reads "API Request failed with status code: " and the code. |
| Localization.ApiErrorMessageZh | Floreboard/Localization.swift:544 | In Chinese, a status error reads "API 请求失败，状态码: " and the code. |
| Localization.LocalizationManager.constructor | Floreboard/Localization.swift:34-44 | Start-up selects `InitialLanguage` of the saved value and the device code. |
| Localization.LocalizationManager.SetLanguage | Floreboard/Localization.swift:28-32 | Setting the language stores its raw value. |
| Localization.LocalizationManager.T | Floreboard/Localization.swift:46-55 | A translation picks the current language's table, falls back to the key, and then substitutes the arguments. |
| Localization.SetLanguagePersists | Floreboard/Localization.swift:28-44 | A language that was set is the one the next start-up restores, whatever the device says. |
| ViewModels.FilteredFlowers | Floreboard/ViewModels.swift:28-35 | A record is shown exactly when the search is empty or its name contains the search text ignoring case, and no category is chosen or its category is the chosen one. |
| ViewModels.FilteredFlowersInOrder | Floreboard/ViewModels.swift:28-35 | The filter keeps the inventory's order. |
| ViewModels.NoFilterShowsAll | Floreboard/ViewModels.swift:28-35 | With no search text and no category, every record is shown. |
| ViewModels.FormFlower | Floreboard/ViewModels.swift:41-45 | The record added from the form has its stock full (initial stock equals quantity). It has the form's meaning and tags, and no usage or timestamps. |
| ViewModels.DeleteAtAsWritten | Floreboard/ViewModels.swift:53-58 | Deleting one row at a time never grows the list and never deletes more rows than picked. |
| ViewModels.IdsAt | Floreboard/ViewModels.swift:55 | The ids shown at the picked rows, row by row. |
| ViewModels.WithoutIds | Floreboard/ViewModels.swift:56 | The records whose id is none of the deleted ids. |
| ViewModels.DeleteResolvedSpec | Floreboard/ViewModels.swift:53-58 | With the picked rows read from the list as shown, every picked record goes and every other record stays, in order. |
| ViewModels.DeleteRowsZeroOne | Floreboard/ViewModels.swift:53-58 | As written, picking the first two of three rows deletes the first and the third records and keeps the second. |
| ViewModels.DeleteRowsZeroOneResolved | Floreboard/ViewModels.swift:53-58 | Reading the rows first deletes exactly the first two records. |
| ViewModels.DeleteRowsOneTwoTraps | Floreboard/ViewModels.swift:53-58 | As written, picking rows 1 and 2 of three deletes the second record and then indexes past the end. |
| ViewModels.InventoryViewModel.AddFlower | Floreboard/ViewModels.swift:37-47 | The form's record is appended through the service, and the list is stored. |
| ViewModels.InventoryViewModel.UpdateFlower | Floreboard/ViewModels.swift:49-51 | The service replaces the first record with the edited record's id. |
| ViewModels.InventoryViewModel.DeleteAt | Floreboard/ViewModels.swift:53-58 | The service's list ends as `DeleteAtAsWritten` specifies, with the filter recomputed after every deletion. The method reports whether an offset fell past the shown list. |
| ViewModels.InventoryViewModel.DeleteAtResolved | Floreboard/ViewModels.swift:53-58 | The corrected deletion removes exactly the records shown at the picked rows when it began. |
| ViewModels.InventoryViewModel.Delete | Floreboard/ViewModels.swift:60-62 | The row's delete button removes every record with that row's id and stores the list. |
| ViewModels.SchoolsFor | Floreboard/ViewModels.swift:110-113 | The schools shown are no more than the table holds, and "all" shows one per row. |
| ViewModels.TechniquesFor | Floreboard/ViewModels.swift:115-118 | The techniques shown are no more than the table holds, and "all" shows one per row. |
| ViewModels.SchoolsForSpec | Floreboard/ViewModels.swift:110-113 | For "all", every school in table order. Otherwise exactly the schools of the chosen culture. |
| ViewModels.TechniquesForSpec | Floreboard/ViewModels.swift:115-118 | For "all", every technique in table order. Otherwise exactly the techniques whose cultures include the chosen one. |
| ViewModels.SchoolTable | Floreboard/ViewModels.swift:93-118 | The Japanese filter lists Ikenobo, Ohara and Sogetsu. The Western filter lists Biedermeier, English and fusion. |
| ViewModels.TechniqueTable | Floreboard/ViewModels.swift:100-118 | The Chinese filter lists cascade and oasis. The Japanese filter lists kenzan, parallel and oasis. |
| ViewModels.PlanRequest | Floreboard/ViewModels.swift:159-162 | Professional mode sets the design mode to "professional" and changes nothing else. Standard mode sends the request as it is. |
| ViewModels.DataUriPayload | Floreboard/ViewModels.swift:182 | The payload is a comma-free tail of the string, and a string without a comma is its own payload. |
| ViewModels.DataUriRoundTrip | Floreboard/ViewModels.swift:182 | The payload after a data URI's comma comes back whole. |
| ViewModels.DesignViewModel.BeginGenerate | Floreboard/ViewModels.swift:120-126 | A call while loading returns at once and changes nothing. Otherwise loading starts at step 0 with no error, and the request, mode and filter are kept. |
| ViewModels.FirstProvider | Floreboard/ViewModels.swift:251 | The first preset that satisfies the test, or none exactly when no preset does. |
| ViewModels.DetectProvider | Floreboard/ViewModels.swift:250-255 | The selected provider is the first preset with the configuration's endpoint, or "custom" when none has it. |
| ViewModels.ApplyProvider | Floreboard/ViewModels.swift:258-268 | A real preset fills in the endpoint, its first models (or ""), and its image endpoint (an empty one becomes nil), and nothing else changes. "custom" and unknown ids change nothing. |
| ViewModels.DetectAfterApply | Floreboard/ViewModels.swift:250-268 | Choosing a preset and reopening the screen detects that same preset. |
| ViewModels.AliyunPresetModels | Floreboard/ViewModels.swift:258-268 | Choosing Aliyun gives the wanx-v1 image model, and so the Aliyun task path. |
| ViewModels.DeepSeekPresetClears | Floreboard/ViewModels.swift:258-268 | Choosing DeepSeek clears the vision and image models and the image endpoint. |
| ViewModels.SettingsViewModel.constructor | Floreboard/ViewModels.swift:245-256 | The screen starts with the current configuration and the provider detected from its endpoint. |
| ViewModels.SettingsViewModel.UpdateProvider | Floreboard/ViewModels.swift:258-268 | The chosen id is selected and the configuration becomes `ApplyProvider` of it. |
| ViewModels.SettingsViewModel.Save | Floreboard/ViewModels.swift:270-272 | The store's slots become `Update` of the edited configuration and the keychain's outcome. |
| HistoryViews.DesignMatches | Floreboard/HistoryViews.swift:18-22 | The search test: the text occurs in the title, the description or the meaning, ignoring case. No design matches the empty text. |
| HistoryViews.FilteredDesigns | Floreboard/HistoryViews.swift:14-24 | An empty search shows every design. Otherwise a design is shown exactly when its title, description or meaning contains the text, ignoring case. |
| HistoryViews.EmptySearchRedundant | Floreboard/HistoryViews.swift:15-22 | No design matches the empty text, so the filter alone would show nothing; the `isEmpty` branch is what shows the whole history. |
| HistoryViews.FilteredDesignsInOrder | Floreboard/HistoryViews.swift:14-24 | The search keeps the history's order. |
| HistoryViews.SearchIgnoresCase | Floreboard/HistoryViews.swift:18-22 | Searching for the lower-cased text finds exactly what the text finds. |
| HistoryViews.ImageLoadFor | Floreboard/HistoryViews.swift:152-162 | A path is read from local storage exactly when there is one and it does not start with "http". |
| HistoryViews.RemoteUrlsSkipped | Floreboard/HistoryViews.swift:155 | A web address is never read from local storage. |
| HistoryViews.StoredImageLoaded | Floreboard/HistoryViews.swift:338-346 | A `<id>.jpg` name, like those the design screen stores, is read back from local storage when the id does not start with "h" (a UUID never does). |
| HistoryViews.DetailAction | Floreboard/HistoryViews.swift:297-300 | The execute button is offered exactly for a draft, and it executes the screen's own copy of the design. |
| HistoryViews.CompletedOffersNothing | Floreboard/HistoryViews.swift:297 | A completed design offers no button. |
| HistoryViews.SecondTapDeductsAgain | Floreboard/HistoryViews.swift:297-300 | While the captured draft is shown, a second tap executes it again, and each hit record's usage grows by twice its hit sum. |
| Dashboard.TotalStock | Floreboard/ContentView.swift:127-129 | The left fold of the quantities; the lemmas below state its sum laws. |
| Dashboard.TotalStockAppend | Floreboard/ContentView.swift:127-129 | The total of two lists one after the other is the sum of their totals. |
| Dashboard.AddFlowerAddsQuantity | Floreboard/ContentView.swift:127-129 | Adding a record adds its quantity to the total stock. |
| Dashboard.TotalStockNonNegative | Floreboard/ContentView.swift:127-129 | The total over non-negative quantities is not negative. |
| Dashboard.TotalStockPointwise | Floreboard/ContentView.swift:127-129 | Lowering quantities record by record lowers the total. |
| Dashboard.TotalStockReplace | Floreboard/ContentView.swift:127-129 | Replacing one record changes the total by the difference of the two quantities. |
| Dashboard.DeductLowersTotalStock | Floreboard/ContentView.swift:127-129 | Executing a design with non-negative counts never raises the total stock. |
| Dashboard.LowStockCount | Floreboard/ContentView.swift:131-133 | The count of records below 10 never exceeds the number of records. |
| Dashboard.NoLowStock | Floreboard/ContentView.swift:131-133 | The count is zero exactly when every record holds at least 10. |
| Dashboard.CountAndListingDisagreeAtThreshold | Floreboard/ContentView.swift:131-133 | With the default threshold of 10, a record holding exactly 10 gets the LOW STOCK marker in the prompt listing but is not counted on the home screen. |
| Dashboard.TotalRevenue | Floreboard/ContentView.swift:135-137 | The sum of the designs' total costs; `RevenueSplits` states how a deletion changes it. |
| Dashboard.RevenueSplits | Floreboard/ContentView.swift:135-137 | Deleting a design takes its cost off the revenue figure. |
| Dashboard.RecentDesigns | Floreboard/ContentView.swift:139-141 | The recent designs are the first five saved designs, or all of them when there are fewer. |
| Dashboard.NewDesignShownFirst | Floreboard/ContentView.swift:139-141 | A design saved for the first time is the first recent design. |
| Dashboard.UpdatedDesignShownInPlace | Floreboard/ContentView.swift:139-141 | A design saved again keeps its place, and within the first five its update shows there. |
| Dashboard.LoginEnabled | Floreboard/ContentView.swift:97 | The login button is enabled exactly when a store name is typed and no login is running. |
| Dashboard.BlankNameEnablesLogin | Floreboard/ContentView.swift:97 | The name is not trimmed, so a name of spaces enables the button. |
| InventoryViews.Truncate | Floreboard/InventoryViews.swift:103 | `Int(x)` rounds toward zero: the result lies within one of x, on the side of zero. |
| InventoryViews.MarginPercent | Floreboard/InventoryViews.swift:102-105 | No positive price gives 0, and a cost at or above the price gives no positive margin. |
| InventoryViews.MarginColorOf | Floreboard/InventoryViews.swift:106-114 | Green from 60, orange from 40 below 60, red below 40. |
| InventoryViews.MarginBands | Floreboard/InventoryViews.swift:101-114 | With a positive price, the margin is green exactly when the cost is at most 40% of the price, and red exactly when it is above 60%. |
| InventoryViews.NoPriceShowsRed | Floreboard/InventoryViews.swift:102 | A record without a positive price shows a margin of 0, in red. |
| InventoryViews.StartingPricesShowGreen | Floreboard/InventoryViews.swift:101-114 | The form's starting cost 5 and price 15 give a margin of 66, in green. |
| InventoryViews.BadgesAreCounted | Floreboard/InventoryViews.swift:127 | The records with a warning badge are exactly the ones the home screen counts as low. |
| InventoryViews.PickerColorsDistinctSwatches | Floreboard/InventoryViews.swift:221-255 | Every colour the picker offers has its own swatch, and none of them is gray. |
| InventoryViews.ColorIgnoresCase | Floreboard/InventoryViews.swift:224 | The swatch ignores the case of the colour name. |
| InventoryViews.UnknownColorIsGray | Floreboard/InventoryViews.swift:233 | A colour name outside the list gives gray. |
| InventoryViews.ColorFromName | Floreboard/InventoryViews.swift:221-235 | The eight colour names in any case, and gray for anything else; the three lemmas above state this. |
| InventoryViews.ToggleCulture | Floreboard/InventoryViews.swift:284-290 | A tap selects a culture that was not selected and deselects one that was, leaving the others as they were. |
| InventoryViews.ToggleTwice | Floreboard/InventoryViews.swift:284-290 | Two taps on one culture restore the selection. |
| InventoryViews.TogglesCommute | Floreboard/InventoryViews.swift:284-290 | Taps on two cultures give the same selection in either order. |
| InventoryViews.FormFor | Floreboard/InventoryViews.swift:242-351 | A new record opens the blank form. An edit fills the form from the record, with an empty meaning for nil and the set of its tags. |
| InventoryViews.ApplyEdit | Floreboard/InventoryViews.swift:355-366 | The edit takes eight fields from the form. The meaning becomes set and the tags become the given listing of the selection. Every other field keeps its value. |
| InventoryViews.EditRoundTrip | Floreboard/InventoryViews.swift:340-366 | Opening a record with a meaning and distinct tags, and saving without changes, gives the record back. |
| InventoryViews.EditFillsMissingMeaning | Floreboard/InventoryViews.swift:347-362 | Saving an unchanged record whose meaning was nil stores an empty meaning, so the record changes. |
| InventoryViews.EditInPlace | Floreboard/InventoryViews.swift:355-366 | After an edit, the list keeps its length and the record keeps its id, usage and initial stock. The total stock moves by the change in quantity. |
| InventoryViews.Step | Floreboard/InventoryViews.swift:304 | From a quantity in 0...1000, a press moves it one step up or down and stays in range; at the bound it would pass, it does not move. |
| InventoryViews.StepsStayInRange | Floreboard/InventoryViews.swift:304 | Any sequence of presses from a value in range stays in range. |
| InventoryViews.SaveEnabled | Floreboard/InventoryViews.swift:336 | Save is enabled exactly when the name is not empty. |
| InventoryViews.BlankFormNeedsName | Floreboard/InventoryViews.swift:336 | The blank form cannot be saved. |
| InventoryViews.Save | Floreboard/InventoryViews.swift:354-373 | An edit replaces the record with the edited copy, and the list is stored when the record was found. A new record is appended from the form and the list is stored. |
| InventoryViews.AddedRecordStartsFull | Floreboard/InventoryViews.swift:367-372 | A record added from the form has its whole stock on hand and nothing used. |

## Left out

- Asynchrony: `async`/`await`, `Task.sleep`, `MainActor`, `DispatchQueue` and the simulated loading steps of `generateDesign` are not modelled. Each operation runs to completion.
- `AuthService` is not modelled: its logic is an asynchronous main-queue toggle of two fields plus storage. Its login button's enablement is `Dashboard.LoginEnabled`.
- The network: each reply is an input value (status, decoded body or transport failure). `URL(string:)` validity is a parameter `isValidUrl`.
- JSON decoding is abstract: a reply either decodes to a value or does not.
- The text of prompts, the system prompt and the loading-status strings is not modelled. Only the budget tier's choice is.
- Image decoding, `ImagePersistence`, file reading and the `URLSession` download of images are not modelled. So is the JPEG encoding, which is a parameter that may fail.
- The force-unwrapped task URL of the Aliyun poll is not modelled: task ids are assumed to form valid URLs.
- Dictionary iteration order: the arguments of `t(_:_:)` are a sequence in the order the substitution happens.
- Locale-aware case folding: comparisons fold ASCII letters only. Whitespace trimming follows `CharacterSet.whitespacesAndNewlines` (the Unicode separators, U+0009 to U+000D and U+0085).
- Localization tables are parameters. Only the error entries of both languages are stated.
- Swift integer overflow traps in `reduce` and elsewhere are not modelled: integers are unbounded.
- InventoryViews.Truncate: covers finite values only; `Int(Double)` on NaN or infinity traps in Swift.
- InventoryViews.MarginPercent: prices and costs are exact reals, not `Double`s. The rounding of `(price - cost) / price * 100` is not modelled, so a margin that lands just beside a band edge in floating point (price 3.35 and cost 1.34 give 59.99… and orange) is placed by exact arithmetic (exactly 60 and green). InventoryViews.MarginBands, Dashboard.TotalRevenue and Dashboard.RevenueSplits share this.
- InventoryViews.MarginBands: the 40 and 60 band edges are stated over exact reals; floating-point rounding at the edges is not modelled.
- Dashboard.TotalRevenue: the sum of `totalCost` values is exact; the rounding of a `Double` sum, and its dependence on the order of addition, is not modelled. Dashboard.RevenueSplits inherits this.
- The order `Array(Set)` yields is unspecified. The caller passes an enumeration of the selection that lists each member once (`Lists`).
- SwiftUI's stepper behaviour for a starting value outside 0...1000 is not modelled: `Step` clamps.
- UUIDs and the clock are parameters.
- UserDefaults and the Keychain are `Option` fields of the classes that write them. Whether the keychain's add succeeds is a parameter of `Config.Update`.
- Config.Update: the old keychain entry is assumed deleted before the add; a delete that failed and left the entry in place is not modelled.
- Config.Update: the blob is always written. `JSONEncoder` refuses a non-finite budget, which would leave the old blob in place; that case is not modelled.
- Inventory.Deducted: every hit of one pass is stamped with the same clock reading `now`. `deductInventory` reads `Date()` once per hit, so the hit records' `updatedAt` may differ slightly. Inventory.Deduct and Inventory.InventoryService.DeductInventory inherit this.
- History.HistoryService.ExecuteDesign: the deduction's time stamps and the copy's `executedAt` are one reading `now`, where the source reads the clock separately for each.
- Haptics, theming (`AppTheme`), the zoomable image view and the screens' layout are not modelled.
- `DesignViewModel.generateDesign` is modelled in its synchronous start and in the request it sends (`PlanRequest`). The task that awaits the AI service and stores the images is not modelled.

## Findings

| source | as written | input that shows it | evidently intended | confidence | as-written member | corrected member |
|---|---|---|---|---|---|---|
| Floreboard/ViewModels.swift:53-58 | `delete(at:)` reads each offset from `filteredFlowers` after the previous deletion has already shrunk the bound list | three visible records, rows 0 and 1 picked: the first and third records go. Rows 1 and 2 picked: the second goes, then the index is out of range | delete the records shown at the picked rows when the swipe happened. No view in these sources calls `delete(at:)`: the inventory screen deletes through `delete(_:)` (Floreboard/InventoryViews.swift:52), so the defect is latent | not executed | ViewModels.DeleteRowsZeroOne | ViewModels.InventoryViewModel.DeleteAtResolved |
