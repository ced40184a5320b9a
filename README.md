# OpenCms ADE helpers: a verified model

This project models, in Dafny, five small self-contained pieces of OpenCms. It proves properties of them.

- **The image scale parameter** (`CmsCroppingParamBean`, module `CroppingParams`).
  - A bean holds six integer settings: target height, target width, crop x, crop y, crop height and crop width. Each defaults to -1, meaning unset.
  - `toString` writes the settings as `__scale=h:..,w:..,cx:..,cy:..,ch:..,cw:..`.
  - `parseImagePath` / `parseScaleParam` read that text back.
  - The bean is a class with six mutable fields. `Value()` returns them as a `Scale` value.
  - The methods are proved against pure specification functions: `Serialize`, `ScaleOfParam` and `ScaleOfPath`. The round trip and the parser's rules are proved about those functions.
- **The ADE manager** (`CmsADEManager`, module `AdeManager`):
  - the initialisation status machine;
  - the JSON form of a container element;
  - the favourite and recent lists kept in the user's additional info: tolerant decoding, and truncation to 100 entries in place;
  - the recent-list size default;
  - the fallback order of the configuration, entry-point and detail-page lookups.
- **The sitemap entry editor's form values** (`CmsSitemapEntryEditor`, module `SitemapEntryEditor`):
  - `getAndRemoveValue`, `getTemplateProperties` and `removeHiddenProperties`;
  - the template values `start` puts into the form;
  - the rewriting of the submitted values in `handleSubmit`.
- **The user search criteria** (`CmsUserSearchParameters`, module `UserSearchParameters`): a record of setters and getters with stated defaults.
- **The project lock toggle** (`CmsProjectLockAction.selectAction`, module `ProjectLockAction`).

Module `Util` holds the Java `String` operations the code relies on:
- `trim`, `startsWith`, `indexOf`, and `split` around one character;
- decimal digits;
- an `Option` type for Java's null references;
- a `Result` type for exceptions that escape a call.

How Java values are modelled:
- `null` is `None`.
- A `HashMap<String, String>` is a `map<string, Option<string>>`: its values may be null, and `get` of a missing key gives null.
- Calls into code outside this model are function parameters or datatype fields whose values are functions:
  - the configuration caches;
  - `CmsSitemapController.isHiddenProperty`;
  - `countLockedResources`;
  - the floating-point aspect-ratio computation.

Some of what the code does is less than its documentation might suggest. The model follows the code:

- `getAndRemoveValue` removes the key only when its value is non-null. A key mapped to null stays in the map (still giving null).
- `initialize` catches only `CmsException`. Any other exception thrown during set-up escapes, and leaves the status `initializing` for good.
- In `getTemplateProperties`, a missing template throws a `NullPointerException`. So does a missing checkbox value next to a non-default template.
- `selectAction` catches only the `CmsException` of `countLockedResources`. A non-numeric item id throws a `NumberFormatException`, which escapes. Any other exception thrown by the count escapes too.

`CmsStringUtil` is not part of this model: `isEmptyOrWhitespaceOnly` is taken to be `trim()` giving the empty string. Neither is `CmsUUID`: a UUID is its textual form, accepted in the 8-4-4-4-12 hexadecimal layout and written in lower case.

The source paths below are relative to the repository root.

## Model

| member | source | states |
|---|---|---|
| Util.NatToDecimal | src-modules/org/opencms/ade/galleries/client/preview/CmsCroppingParamBean.java:402 | `StringBuffer.append(int)` of a non-negative number is a non-empty run of decimal digits |
| Util.DigitsValueOfDecimal | src-modules/org/opencms/ade/galleries/client/preview/CmsCroppingParamBean.java:194-201 | reading back the decimal text of n gives n |
| Util.LeadingDigits | src-modules/org/opencms/ade/galleries/client/preview/CmsCroppingParamBean.java:196 | the longest digit prefix: a prefix, all digits, followed by a non-digit or the end |
| Util.TrimStart | src-modules/org/opencms/ade/galleries/client/preview/CmsCroppingParamBean.java:157 | `trim` drops exactly the leading chars `<= ' '` |
| Util.TrimEnd | src-modules/org/opencms/ade/galleries/client/preview/CmsCroppingParamBean.java:157 | `trim` drops exactly the trailing chars `<= ' '` |
| Util.TrimEmptyIff | src-modules/org/opencms/ade/galleries/client/preview/CmsCroppingParamBean.java:152 | the trimmed text is empty iff every char is `<= ' '` (both directions) |
| Util.TrimOfVisible | src-modules/org/opencms/ade/galleries/client/preview/CmsCroppingParamBean.java:157 | text that starts and ends with a visible char is its own trim |
| Util.IndexOfFrom | src-modules/org/opencms/ade/galleries/client/preview/CmsCroppingParamBean.java:127 | `indexOf` gives the first occurrence at or after `from`; -1 means there is none |
| Util.IndexOfFromFirst | src-modules/org/opencms/ade/galleries/client/preview/CmsCroppingParamBean.java:127 | an occurrence with none before it is what `indexOf` returns |
| Util.SplitAll | src-modules/org/opencms/ade/galleries/client/preview/CmsCroppingParamBean.java:155 | splitting always gives at least one piece |
| Util.SplitAllNoDelimiter | src-modules/org/opencms/ade/galleries/client/preview/CmsCroppingParamBean.java:155 | text without the delimiter splits into itself |
| Util.SplitAllPrefix | src-modules/org/opencms/ade/galleries/client/preview/CmsCroppingParamBean.java:155 | splitting `t + d + rest` gives t, then the pieces of rest |
| Util.SplitAllJoin | src-modules/org/opencms/ade/galleries/client/preview/CmsCroppingParamBean.java:155 | split undoes join, for pieces free of the delimiter |
| Util.JoinAvoids | src-modules/org/opencms/ade/galleries/client/preview/CmsCroppingParamBean.java:133 | a char other than the delimiter, in no piece, is not in the join |
| Util.JoinHasDelimiter | src-modules/org/opencms/ade/galleries/client/preview/CmsCroppingParamBean.java:155 | a join of two or more pieces contains the delimiter |
| Util.JoinLast | src-modules/org/opencms/ade/galleries/client/preview/CmsCroppingParamBean.java:425 | the last char of a join is the last char of the last piece |
| Util.JoinFirst | src-modules/org/opencms/ade/galleries/client/preview/CmsCroppingParamBean.java:424 | the first char of a join is the first char of the first piece |
| CroppingParams.Set | src-modules/org/opencms/ade/galleries/client/preview/CmsCroppingParamBean.java:339-392 | a setter changes its own setting and no other |
| CroppingParams.SkipJsSpace | src-modules/org/opencms/ade/galleries/client/preview/CmsCroppingParamBean.java:196 | `parseInt` skips leading white space: a suffix with no space left in front |
| CroppingParams.EntryShape | src-modules/org/opencms/ade/galleries/client/preview/CmsCroppingParamBean.java:401-422 | a written token is `key:`, then the decimal value; it has no comma and no `&`, and starts and ends visibly |
| CroppingParams.MatchKeyOfEntry | src-modules/org/opencms/ade/galleries/client/preview/CmsCroppingParamBean.java:158-181 | the key tests, in source order, recognise the token written for f as f |
| CroppingParams.ParseValue | src-modules/org/opencms/ade/galleries/client/preview/CmsCroppingParamBean.java:194-201 | the model of `parseValue` (`substr` past `name:`, then `parseInt`, NaN becoming -1). Its contract is stated by ParseValueOfEntry (reads a written number back), ParseLeadingIntOfDigits and UnparsableValue (-1 when no number follows) |
| CroppingParams.ParseValueOfEntry | src-modules/org/opencms/ade/galleries/client/preview/CmsCroppingParamBean.java:194-201 | parseValue reads back the number written after the key |
| CroppingParams.ParseLeadingIntOfDigits | src-modules/org/opencms/ade/galleries/client/preview/CmsCroppingParamBean.java:196 | `parseInt` of a digit run that ends the text is that number |
| CroppingParams.AllDigitsLeading | src-modules/org/opencms/ade/galleries/client/preview/CmsCroppingParamBean.java:196 | the leading digits of an all-digit text are the whole text |
| CroppingParams.ApplyEntry | src-modules/org/opencms/ade/galleries/client/preview/CmsCroppingParamBean.java:157-181 | applying the token written for f sets exactly f to the written value |
| CroppingParams.ApplyTokensSnoc | src-modules/org/opencms/ade/galleries/client/preview/CmsCroppingParamBean.java:156 | the loop over one more token is one more pass of its body |
| CroppingParams.ApplyTokensStep | src-modules/org/opencms/ade/galleries/client/preview/CmsCroppingParamBean.java:156 | the same, for the first i+1 tokens |
| CroppingParams.ApplyTokensConcat | src-modules/org/opencms/ade/galleries/client/preview/CmsCroppingParamBean.java:156-182 | the loop over `a + b` is the loop over a, then the loop over b |
| CroppingParams.ApplyEntryFor | src-modules/org/opencms/ade/galleries/client/preview/CmsCroppingParamBean.java:157-181 | reading a setting's written piece copies that setting, if set, and changes no other |
| CroppingParams.ApplyEntries | src-modules/org/opencms/ade/galleries/client/preview/CmsCroppingParamBean.java:149-183 | parsing the written tokens in order, starting from a fresh bean, rebuilds the value |
| CroppingParams.EntryForWellFormed | src-modules/org/opencms/ade/galleries/client/preview/CmsCroppingParamBean.java:401-422 | each written piece is non-empty, with no comma and no `&` |
| CroppingParams.AllWellFormedConcat | src-modules/org/opencms/ade/galleries/client/preview/CmsCroppingParamBean.java:401-422 | well-formed pieces stay well formed when concatenated |
| CroppingParams.EntriesWellFormed | src-modules/org/opencms/ade/galleries/client/preview/CmsCroppingParamBean.java:401-422 | every token toString writes is well formed |
| CroppingParams.InFieldOrderStep | src-modules/org/opencms/ade/galleries/client/preview/CmsCroppingParamBean.java:401-422 | one more `if (value > -1) append` keeps the keys in increasing order, with a key exactly for each set setting |
| CroppingParams.KeysAppend | src-modules/org/opencms/ade/galleries/client/preview/CmsCroppingParamBean.java:401-422 | a token for a later setting, appended after the earlier ones, keeps the keys strictly increasing |
| CroppingParams.TokenIffSetAppend | src-modules/org/opencms/ade/galleries/client/preview/CmsCroppingParamBean.java:401-422 | appending a set setting's token records that setting and changes what is recorded for no earlier one |
| CroppingParams.EntriesInOrder | src-modules/org/opencms/ade/galleries/client/preview/CmsCroppingParamBean.java:401-422 | toString writes a token for a setting iff it is `> -1`; the keys strictly increase in the order h, w, cx, cy, ch, cw |
| CroppingParams.SerializeEmptyIff | src-modules/org/opencms/ade/galleries/client/preview/CmsCroppingParamBean.java:423-427 | toString is `""` iff every setting is `<= -1` (both directions) |
| CroppingParams.SerializeLayout | src-modules/org/opencms/ade/galleries/client/preview/CmsCroppingParamBean.java:397-428 | non-empty output starts with `__scale=` and has no trailing comma; the text after the marker splits into exactly the written tokens |
| CroppingParams.SplitOfJoin | src-modules/org/opencms/ade/galleries/client/preview/CmsCroppingParamBean.java:155 | `split(",")` of the comma-joined tokens gives the tokens back, with Java's trailing-empty rule |
| CroppingParams.RoundTrip | src-modules/org/opencms/ade/galleries/client/preview/CmsCroppingParamBean.java:125-201 | for every value with no setting below -1, `parseImagePath(toString())` gives the value back |
| CroppingParams.ApplyTokensField | src-modules/org/opencms/ade/galleries/client/preview/CmsCroppingParamBean.java:156-182 | each setting is decided by the last token naming it: later tokens override earlier ones; tokens for other settings, and unknown tokens, leave it alone |
| CroppingParams.ScaleOfBlankParam | src-modules/org/opencms/ade/galleries/client/preview/CmsCroppingParamBean.java:152-154 | an empty or blank parameter gives the default bean |
| CroppingParams.UnknownTokenIgnored | src-modules/org/opencms/ade/galleries/client/preview/CmsCroppingParamBean.java:157-181 | a trimmed token that starts with no known `key:` changes nothing |
| CroppingParams.UnparsableValue | src-modules/org/opencms/ade/galleries/client/preview/CmsCroppingParamBean.java:194-201 | a recognised key with an unparsable value sets that setting to -1 |
| CroppingParams.ScaleOfPathWithoutMarker | src-modules/org/opencms/ade/galleries/client/preview/CmsCroppingParamBean.java:127-139 | a path without `__scale=` gives the default bean |
| CroppingParams.ScaleOfPathWithMarker | src-modules/org/opencms/ade/galleries/client/preview/CmsCroppingParamBean.java:127-137 | with the first `__scale=` at pos, exactly the text after it up to the first `&` (or the end) is parsed |
| CroppingParams.ScaleTextShape | src-modules/org/opencms/ade/galleries/client/preview/CmsCroppingParamBean.java:130-136 | the parsed text directly follows the marker, holds no `&`, and is followed by `&` or the end |
| CroppingParams.RestrictedSizeWithinBounds | src-modules/org/opencms/ade/galleries/client/preview/CmsCroppingParamBean.java:251-256 | within both maxima, getRestrictedSizeParam returns an unchanged copy |
| CroppingParams.RestrictedSizeKeepsCrop | src-modules/org/opencms/ade/galleries/client/preview/CmsCroppingParamBean.java:251-268 | the restriction changes only the target size, never the crop settings |
| CroppingParams.RestrictedScaleParamOfUnset | src-modules/org/opencms/ade/galleries/client/preview/CmsCroppingParamBean.java:278-289 | when toString is empty, the result is `__scale=h:<maxHeight>,w:<maxWidth>` |
| CroppingParams.RestrictedScaleParamWithinBounds | src-modules/org/opencms/ade/galleries/client/preview/CmsCroppingParamBean.java:278-283 | a non-empty parameter within both maxima comes back unchanged |
| CroppingParams.TerminatedConcat | src-modules/org/opencms/ade/galleries/client/preview/CmsCroppingParamBean.java:400-422 | appending `token,` pieces distributes over concatenation |
| CroppingParams.TerminatedIsJoin | src-modules/org/opencms/ade/galleries/client/preview/CmsCroppingParamBean.java:423-426 | the buffer of `token,` pieces, without its last char, is the comma join |
| CroppingParams.TerminatedStep | src-modules/org/opencms/ade/galleries/client/preview/CmsCroppingParamBean.java:401-422 | one `append` step adds `key:value,` exactly when the setting is set |
| CroppingParams.BufferToSerialized | src-modules/org/opencms/ade/galleries/client/preview/CmsCroppingParamBean.java:423-427 | inserting the marker and deleting the last char turns the buffer into toString's result |
| CroppingParams.CroppingParamBean.constructor | src-modules/org/opencms/ade/galleries/client/preview/CmsCroppingParamBean.java:78-101 | a fresh bean has all six settings -1 |
| CroppingParams.CroppingParamBean.Copy | src-modules/org/opencms/ade/galleries/client/preview/CmsCroppingParamBean.java:108-116 | the copy constructor copies all six settings |
| CroppingParams.CroppingParamBean.SetCropHeight | src-modules/org/opencms/ade/galleries/client/preview/CmsCroppingParamBean.java:339-342 | sets the crop height, nothing else |
| CroppingParams.CroppingParamBean.SetCropWidth | src-modules/org/opencms/ade/galleries/client/preview/CmsCroppingParamBean.java:349-352 | sets the crop width, nothing else |
| CroppingParams.CroppingParamBean.SetCropX | src-modules/org/opencms/ade/galleries/client/preview/CmsCroppingParamBean.java:359-362 | sets crop x, nothing else |
| CroppingParams.CroppingParamBean.SetCropY | src-modules/org/opencms/ade/galleries/client/preview/CmsCroppingParamBean.java:369-372 | sets crop y, nothing else |
| CroppingParams.CroppingParamBean.SetTargetHeight | src-modules/org/opencms/ade/galleries/client/preview/CmsCroppingParamBean.java:379-382 | sets the target height, nothing else |
| CroppingParams.CroppingParamBean.SetTargetWidth | src-modules/org/opencms/ade/galleries/client/preview/CmsCroppingParamBean.java:389-392 | sets the target width, nothing else |
| CroppingParams.CroppingParamBean.Reset | src-modules/org/opencms/ade/galleries/client/preview/CmsCroppingParamBean.java:324-332 | reset restores exactly a fresh bean's state |
| CroppingParams.CroppingParamBean.IsCroppedBean | src-modules/org/opencms/ade/galleries/client/preview/CmsCroppingParamBean.java:316-319 | isCropped is true iff crop x is `> -1` |
| CroppingParams.CroppingParamBean.ToString | src-modules/org/opencms/ade/galleries/client/preview/CmsCroppingParamBean.java:397-428 | the `StringBuffer` append/insert/delete sequence produces `Serialize` of the bean |
| CroppingParams.CroppingParamBean.AppendIfSet | src-modules/org/opencms/ade/galleries/client/preview/CmsCroppingParamBean.java:401-422 | one conditional append grows the buffer by the setting's piece |
| CroppingParams.CroppingParamBean.ParseScaleParam | src-modules/org/opencms/ade/galleries/client/preview/CmsCroppingParamBean.java:149-184 | the loop over the split tokens yields a fresh bean whose value is `ScaleOfParam(param)` |
| CroppingParams.CroppingParamBean.ApplyScaleParam | src-modules/org/opencms/ade/galleries/client/preview/CmsCroppingParamBean.java:157-181 | one pass of the loop (trim, first matching key, setter) is `ApplyToken` |
| CroppingParams.CroppingParamBean.ParseImagePath | src-modules/org/opencms/ade/galleries/client/preview/CmsCroppingParamBean.java:125-140 | the result bean's value is `ScaleOfPath(selectedPath)` |
| CroppingParams.CroppingParamBean.GetRestrictedSizeParam | src-modules/org/opencms/ade/galleries/client/preview/CmsCroppingParamBean.java:251-268 | a fresh copy; only its target size is replaced, and only when outside the maxima |
| CroppingParams.CroppingParamBean.GetRestrictedSizeScaleParam | src-modules/org/opencms/ade/galleries/client/preview/CmsCroppingParamBean.java:278-289 | returns `RestrictedScaleParam` of the bean's value |
| AdeManager.InitializedIsStable | src/org/opencms/ade/configuration/CmsADEManager.java:541-543 | once `initialized`, any further calls of initialize change nothing |
| AdeManager.InitializingIsStuck | src/org/opencms/ade/configuration/CmsADEManager.java:543-566 | after an uncaught failure the status stays `initializing`, whatever follows |
| AdeManager.RunInitFromStart | src/org/opencms/ade/configuration/CmsADEManager.java:541-571 | from `notInitialized`: ends `initialized` iff some attempt succeeds after only CmsException failures; ends `notInitialized` iff every attempt failed with a CmsException |
| AdeManager.Manager.constructor | src/org/opencms/ade/configuration/CmsADEManager.java:163 | a new manager is `notInitialized` |
| AdeManager.Manager.Initialize | src/org/opencms/ade/configuration/CmsADEManager.java:541-571 | acts only when `notInitialized`: success gives `initialized`, a CmsException gives `notInitialized`, any other failure leaves `initializing` |
| AdeManager.Manager.IsInitialized | src/org/opencms/ade/configuration/CmsADEManager.java:594-597 | true iff the status is `initialized` |
| AdeManager.ToLowerHex | src/org/opencms/ade/configuration/CmsADEManager.java:777 | lower-casing keeps the length and folds each hex letter |
| AdeManager.ParseUuid | src/org/opencms/ade/configuration/CmsADEManager.java:748 | `new CmsUUID` accepts exactly the 8-4-4-4-12 hex layout and yields the canonical form |
| AdeManager.ParseUuidOfText | src/org/opencms/ade/configuration/CmsADEManager.java:748-751 | reading an id's text back gives the same id |
| AdeManager.ElementToJson | src/org/opencms/ade/configuration/CmsADEManager.java:772-795 | the loop over the settings builds exactly `ElementJson(element)` |
| AdeManager.ElementFromJson | src/org/opencms/ade/configuration/CmsADEManager.java:746-763 | the loop over the property keys decodes exactly `DecodeElement(data)`, failing on a missing or malformed id, a non-object properties entry, or a non-string property |
| AdeManager.ElementRoundTrip | src/org/opencms/ade/configuration/CmsADEManager.java:746-795 | `elementFromJson(elementToJson(e))` gives back e's id, formatter id and settings map |
| AdeManager.FormatterKeyIff | src/org/opencms/ade/configuration/CmsADEManager.java:749-780 | the `formatter` key is written iff there is a formatter id; a decoded element has no formatter iff the key is absent |
| AdeManager.DecodeListConcat | src/org/opencms/ade/configuration/CmsADEManager.java:376-383 | decoding distributes over concatenation, so stored order is kept |
| AdeManager.DecodeListBound | src/org/opencms/ade/configuration/CmsADEManager.java:376-383 | decoding never yields more elements than entries, and each element decodes from an object entry of the array |
| AdeManager.DecodeEntryOfElement | src/org/opencms/ade/configuration/CmsADEManager.java:865-868 | the array entry written for a valid element reads back as exactly that element |
| AdeManager.DecodeListSnoc | src/org/opencms/ade/configuration/CmsADEManager.java:376-383 | one more array entry appends what that entry decodes to, so stored order is kept |
| AdeManager.EncodeListSnoc | src/org/opencms/ade/configuration/CmsADEManager.java:866-868 | one more element appends its JSON object at the end of the array |
| AdeManager.DecodeEncodeList | src/org/opencms/ade/configuration/CmsADEManager.java:865-868 | an array written from valid elements decodes to exactly those elements |
| AdeManager.SaveThenRead | src/org/opencms/ade/configuration/CmsADEManager.java:858-872 | saving then reading gives the first min(n,100) elements in their original order |
| AdeManager.SaveKeepsOtherList | src/org/opencms/ade/configuration/CmsADEManager.java:870 | saving one list leaves the list stored under the other key as read before |
| AdeManager.SaveElementList | src/org/opencms/ade/configuration/CmsADEManager.java:858-872 | truncates the caller's list in place to its first min(n,100) elements, and stores their JSON array under the key |
| AdeManager.SaveFavoriteList | src/org/opencms/ade/configuration/CmsADEManager.java:668-671 | saveElementList under `ADE_FAVORITE_LIST` |
| AdeManager.SaveRecentList | src/org/opencms/ade/configuration/CmsADEManager.java:724-727 | saveElementList under `ADE_RECENT_LIST` |
| AdeManager.ReadElementList | src/org/opencms/ade/configuration/CmsADEManager.java:367-394 | skips entries that fail to decode and keeps the rest in stored order; non-String values give an empty list and save an empty list |
| AdeManager.GetFavoriteList | src/org/opencms/ade/configuration/CmsADEManager.java:367-394 | the stored favourite list, as above |
| AdeManager.GetRecentList | src/org/opencms/ade/configuration/CmsADEManager.java:474-501 | the stored recent list, as above |
| AdeManager.ReadIsRepeatable | src/org/opencms/ade/configuration/CmsADEManager.java:388-391 | the empty list saved for a non-String value reads back as the same empty result |
| AdeManager.RecentListMaxSize | src/org/opencms/ade/configuration/CmsADEManager.java:510-517 | 10 with no stored size, the stored Integer otherwise; a stored non-Integer is a ClassCastException |
| AdeManager.InternalLookupConfiguration | src/org/opencms/ade/configuration/CmsADEManager.java:838-847 | from the cache of the current project (online or offline), null iff neither a site configuration for the path nor a module configuration exists; otherwise one of those two |
| AdeManager.LookupConfiguration | src/org/opencms/ade/configuration/CmsADEManager.java:607-617 | the model of `lookupConfiguration`. Its contract is stated by LookupOrder: site configuration, else module configuration, else a fresh default, never null |
| AdeManager.LookupOrder | src/org/opencms/ade/configuration/CmsADEManager.java:607-617 | never null: the project's site configuration, else its module configuration, else a fresh default |
| AdeManager.FindEntryPoint | src/org/opencms/ade/configuration/CmsADEManager.java:215-223 | the configuration's base path, else the site root of "/" |
| AdeManager.EntryPointWithoutConfiguration | src/org/opencms/ade/configuration/CmsADEManager.java:215-223 | with no site or module configuration, the entry point is the site root of "/" |
| AdeManager.GetDetailPage | src/org/opencms/ade/configuration/CmsADEManager.java:287-307 | the model of `getDetailPage`. Its contract is stated by DetailPageOrder: null without a parent folder type, else the origin's first page, else the page root path's first page, else null |
| AdeManager.DetailPageOrder | src/org/opencms/ade/configuration/CmsADEManager.java:287-307 | null without a parent folder type; otherwise the first page for the type in the origin's configuration, else in the page root path's, else null (both directions) |
| SitemapEntryEditor.RemoveValueEffect | src-modules/org/opencms/ade/sitemap/client/CmsSitemapEntryEditor.java:115-122 | afterwards the key yields null, and every other entry is unchanged |
| SitemapEntryEditor.GetAndRemoveValue | src-modules/org/opencms/ade/sitemap/client/CmsSitemapEntryEditor.java:115-122 | returns the value for the key (or null) and removes the key when that value is non-null |
| SitemapEntryEditor.TemplatePropertiesCases | src-modules/org/opencms/ade/sitemap/client/CmsSitemapEntryEditor.java:145-158 | the template is read under the `template` property name; the default template `""` gives (null, null); otherwise (template, template) iff the checkbox equals "true" ignoring case, else (template, null); the exact null-pointer cases |
| SitemapEntryEditor.GetTemplateProperties | src-modules/org/opencms/ade/sitemap/client/CmsSitemapEntryEditor.java:145-158 | returns `TemplateProperties` of the old values, and the checkbox key is always taken out |
| SitemapEntryEditor.RemoveHiddenProperties | src-modules/org/opencms/ade/sitemap/client/CmsSitemapEntryEditor.java:170-180 | exactly the entries of the input whose key is not hidden, with their values |
| SitemapEntryEditor.InitialTemplate | src-modules/org/opencms/ade/sitemap/client/CmsSitemapEntryEditor.java:196-202 | the `template` property, or `""` when it is absent |
| SitemapEntryEditor.UrlNameFieldValue | src-modules/org/opencms/ade/sitemap/client/CmsSitemapEntryEditor.java:383-387 | the entry's name, or `""` when it is null |
| SitemapEntryEditor.TitleFieldValueAsWritten | src-modules/org/opencms/ade/sitemap/client/CmsSitemapEntryEditor.java:361-365 | the as-written value `createTitleField` gives its text box: `entry.getTitle()`, the computed default unused. TitleFieldDefaultUnused states it for every entry without a title |
| SitemapEntryEditor.TitleFieldDefaultUnused | src-modules/org/opencms/ade/sitemap/client/CmsSitemapEntryEditor.java:361-365 | for every entry without a title, the text box is given null as written, where the corrected value is the `""` computed just before |
| SitemapEntryEditor.TitleFieldValue | src-modules/org/opencms/ade/sitemap/client/CmsSitemapEntryEditor.java:361-365 | the entry's title, or `""` when it is null |
| SitemapEntryEditor.HandleSubmit | src-modules/org/opencms/ade/sitemap/client/CmsSitemapEntryEditor.java:220-228 | takes out the title and url name, then writes the template pair; the new field values are `SubmittedValues` |
| SitemapEntryEditor.SubmitRewritesFields | src-modules/org/opencms/ade/sitemap/client/CmsSitemapEntryEditor.java:222-228 | after a successful submit, the title, url-name and checkbox fields yield null; `template`/`templateInherited` hold the pair; every other field is unchanged |
| SitemapEntryEditor.InheritTemplate | src-modules/org/opencms/ade/sitemap/client/CmsSitemapEntryEditor.java:196-198 | whether `start` checks the inherit box: `template` is non-null and equals `templateInherited`. UnchangedTemplateFields uses it for the round trip through submit |
| SitemapEntryEditor.StartTemplateFields | src-modules/org/opencms/ade/sitemap/client/CmsSitemapEntryEditor.java:196-205 | the template selector and inherit-checkbox values `start` adds to the form (InitialTemplate, and `"" + inheritTemplate`). UnchangedTemplateFields states what submitting them gives back |
| SitemapEntryEditor.UnchangedTemplateFields | src-modules/org/opencms/ade/sitemap/client/CmsSitemapEntryEditor.java:196-228 | submitting the template fields as `start` filled them in keeps the template, and inherits it iff `template` equalled `templateInherited`; no template deletes both |
| UserSearchParameters.AddSearchKey | src/org/opencms/file/CmsUserSearchParameters.java:86-89 | addSearch adds the key to the set and changes no other field |
| UserSearchParameters.AddSearchIdempotent | src/org/opencms/file/CmsUserSearchParameters.java:86-89 | adding the same key twice equals adding it once |
| UserSearchParameters.AddSearchCommutes | src/org/opencms/file/CmsUserSearchParameters.java:86-89 | the order of adding keys does not matter |
| UserSearchParameters.WithPaging | src/org/opencms/file/CmsUserSearchParameters.java:338-342 | sets page size and page together, nothing else |
| UserSearchParameters.WithPagingOverrides | src/org/opencms/file/CmsUserSearchParameters.java:338-342 | a later setPaging fully overrides an earlier one |
| UserSearchParameters.WithSorting | src/org/opencms/file/CmsUserSearchParameters.java:383-387 | sets sort key and order together, nothing else |
| UserSearchParameters.PagingAndSortingCommute | src/org/opencms/file/CmsUserSearchParameters.java:338-387 | setPaging and setSorting do not interfere |
| UserSearchParameters.SearchParameters.constructor | src/org/opencms/file/CmsUserSearchParameters.java:79-126 | page size -1, page 0, no search keys, every boolean false, every reference null |
| UserSearchParameters.SearchParameters.AddSearch | src/org/opencms/file/CmsUserSearchParameters.java:86-89 | the key is in the search keys, nothing else changes |
| UserSearchParameters.SearchParameters.SetPaging | src/org/opencms/file/CmsUserSearchParameters.java:338-342 | the getters return the new page size and page, nothing else changes |
| UserSearchParameters.SearchParameters.SetSorting | src/org/opencms/file/CmsUserSearchParameters.java:383-387 | the getters return the new key and order, nothing else changes |
| UserSearchParameters.SearchParameters.SetFlags | src/org/opencms/file/CmsUserSearchParameters.java:277-290 | getFlags returns what was set; nothing else changes |
| UserSearchParameters.SearchParameters.SetSearchFilter | src/org/opencms/file/CmsUserSearchParameters.java:372-375 | getSearchFilter returns what was set; nothing else changes |
| UserSearchParameters.SearchParameters.SetRecursiveOrgUnits | src/org/opencms/file/CmsUserSearchParameters.java:156-169 | recursiveOrgUnits returns what was set; nothing else changes |
| UserSearchParameters.SearchParameters.SetFilterCore | src/org/opencms/file/CmsUserSearchParameters.java:352-365 | isFilterCore returns what was set; nothing else changes |
| UserSearchParameters.SearchParameters.SetFilterByGroupOu | src/org/opencms/file/CmsUserSearchParameters.java:227-240 | isFilterByGroupOu returns what was set; nothing else changes |
| UserSearchParameters.SearchParameters.SetGroup | src/org/opencms/file/CmsUserSearchParameters.java:247-260 | getGroup returns what was set; nothing else changes |
| UserSearchParameters.SearchParameters.SetNotGroup | src/org/opencms/file/CmsUserSearchParameters.java:205-218 | getNotGroup returns what was set; nothing else changes |
| UserSearchParameters.SearchParameters.SetOrganizationalUnit | src/org/opencms/file/CmsUserSearchParameters.java:133-146 | getOrganizationalUnit returns what was set; nothing else changes |
| UserSearchParameters.SearchParameters.SetAnyGroups | src/org/opencms/file/CmsUserSearchParameters.java:185-198 | getAnyGroups returns what was set; nothing else changes |
| UserSearchParameters.SearchParameters.SetNotAnyGroups | src/org/opencms/file/CmsUserSearchParameters.java:417-430 | getNotAnyGroups returns what was set; nothing else changes |
| UserSearchParameters.SearchParameters.SetAllowedOus | src/org/opencms/file/CmsUserSearchParameters.java:397-410 | getAllowedOus returns what was set; nothing else changes |
| ProjectLockAction.ParseJavaInt | src-modules/org/opencms/workplace/tools/projects/CmsProjectLockAction.java:88 | `new Integer(id)` gives a 32-bit value, or a NumberFormatException |
| ProjectLockAction.ParseJavaIntOfDecimal | src-modules/org/opencms/workplace/tools/projects/CmsProjectLockAction.java:88 | the decimal text of an id in range parses to that id |
| ProjectLockAction.ParseJavaIntRejects | src-modules/org/opencms/workplace/tools/projects/CmsProjectLockAction.java:88 | empty text, or text not starting with a sign or digit, is a NumberFormatException |
| ProjectLockAction.SelectAction | src-modules/org/opencms/workplace/tools/projects/CmsProjectLockAction.java:84-96 | the model of `selectAction`: no item gives the second action, and a CmsException from the count never escapes. SelectActionCases and SelectForProject give every outcome |
| ProjectLockAction.SelectActionCases | src-modules/org/opencms/workplace/tools/projects/CmsProjectLockAction.java:84-96 | first action iff an item with a numeric id has 0 locked resources. An exception iff the item's id is not numeric (then a NumberFormatException), or the count throws something other than a CmsException (then that exception). Otherwise the second action |
| ProjectLockAction.SelectWithoutItem | src-modules/org/opencms/workplace/tools/projects/CmsProjectLockAction.java:86-95 | no item gives the second action |
| ProjectLockAction.SelectForProject | src-modules/org/opencms/workplace/tools/projects/CmsProjectLockAction.java:88-95 | for a numeric id: a count of 0 gives the first action; any other count, or a CmsException, gives the second; any other exception of the count escapes unchanged |

## Left out

- `parseValue` is native JavaScript `parseInt`. The model takes: optional JavaScript white space, an optional sign, and the leading decimal digits; NaN becomes -1. Left out: hexadecimal `0x` prefixes, Unicode space characters other than the common ones listed in `IsJsSpace`, and the conversion of numbers beyond the 32-bit range back to a Java `int`.
- Java `int` fields and setter arguments are unbounded integers. No operation in the modelled code does arithmetic on them, so no wrap-around arises.
- CroppingParams.RoundTrip holds for values with no setting below -1. A setting below -1 is not written, so it reads back as -1.
- `getRestrictedSizeParam`: the floating-point aspect-ratio branch (`Math.floor` of double quotients) is the parameter `fit`. Only the integer branch and the copy are modelled.
- CroppingParams.CroppingParamBean.ParseScaleParam: the loop body is a separate method, `ApplyScaleParam`, in which `return` stands for the source's `continue`.
- CroppingParams.CroppingParamBean.ParseScaleParam and ParseImagePath take non-null strings. In the source, `parseScaleParam(null)` returns a fresh bean, since `isEmptyOrWhitespaceOnly(null)` holds (line 152). `parseImagePath(null)` throws a NullPointerException at line 127. Neither null case is modelled.
- `CmsStringUtil.isEmptyOrWhitespaceOnly` and `isNotEmptyOrWhitespaceOnly` are taken to be `trim()` giving or not giving the empty string. CmsStringUtil is not part of this model.
- `CmsUUID` is not part of this model. A UUID is its text: accepted in the 8-4-4-4-12 hexadecimal layout in either case, and written in lower case.
- AdeManager.ElementFromJson and AdeManager.DecodeElement: a non-string value under `element`, `formatter` or a property key counts as a decoding failure. The JSON library's `getString` would convert it to text instead. The JSON library is not part of this model.
- JSON text is not parsed or printed. A stored list is the array it holds, or text the parser rejects; `JSONArray.toString` followed by `new JSONArray` is taken to give the same entries back.
- An element's settings map keys to non-null strings. In `elementToJson`, `properties.put(key, null)` removes the key rather than storing it, so a setting whose value is null would not survive the round trip; the model has no such settings. `elementToJson` returning null after a `JSONException` is not modelled. `JSONObject.put` with a non-null string key and a string or object value does not throw.
- These are part of the block whose outcome `initialize` abstracts as a `SetupOutcome`: the configuration caches, the container configuration caches, the event handler registration, `getTempfileProject` and `OpenCms.initCmsObject`. The `synchronized` locking is not modelled.
- `cms.writeUser` persistence is not modelled, and neither is the logging. The user's additional info is the field the model updates.
- These wrap foreign calls without logic of their own and are not modelled: `getAllDetailPages`, `getDetailPages`, `isDetailPage`, `getElementSettings`, `getInheritedContainerState`, `getSubSiteRoot`, `saveDetailPages`, `saveInheritedContainer`, `refresh` and `getRootPath`, as well as the constructor.
- A freshly initialised `CmsADEConfigData` (the fallback of `lookupConfiguration`) is taken to have no base path and no detail pages. That class is not part of this model.
- `addSiteRoot`, the caches' `getSiteConfigData`, `getModuleConfiguration` and `getParentFolderType`, and `getDetailPagesForType` are abstract functions.
- SitemapEntryEditor.EqualsIgnoreCase folds ASCII letters only. This decides every comparison with "true", which has no letter with non-ASCII case partners.
- These are GWT user-interface glue and are not modelled: the dialog widgets, form validation, the asynchronous `translateUrlName` callback, `m_controller.edit`, and the property fields `start` adds. `HandleSubmit` stops where the callback starts.
- `CmsUserSearchParameters` shares collections with its callers, and the model does not capture that aliasing. `getSearchKeys` returns the live set, through which a caller can change it. `setAnyGroups`, `setNotAnyGroups` and `setAllowedOus` keep a reference to the caller's collection, and their getters return that same object. The model stores and returns these collections as values. Groups and organizational units are identified by name.
- ProjectLockAction.ParseJavaInt models `Integer.parseInt` as it behaves from Java 7 on, where a leading `+` is accepted; earlier versions reject it. It accepts ASCII digits only, whereas `Integer.parseInt` also accepts other Unicode decimal digits. An item id is a non-null string; a null id, which `new Integer` rejects with a NumberFormatException, is not modelled.
- The sitemap manager's property names `CmsSitemapManager.Property.template` and `Property.templateInherited` are taken to print as `template` and `templateInherited`. CmsSitemapManager is not part of this model. `getTemplateProperties` reads the template under the property name. `start` writes it under the form field name `template` (`FIELD_TEMPLATE`), so the two meet only through this assumption.
- The list-action framework around `selectAction` is not modelled: `getItem`, `getFirstAction` and `getSecondAction`.

## Findings

| source | as written | input that shows it | evidently intended | confidence | as-written member | corrected member |
|---|---|---|---|---|---|---|
| src-modules/org/opencms/ade/sitemap/client/CmsSitemapEntryEditor.java:361-365 | `createTitleField` replaces a null title by `""` in a local variable, but then passes `entry.getTitle()` to the text box. The default is dead | an entry whose title is null | the text box shows `""` for a missing title, as `createUrlNameField` does for a missing name | medium, not executed. `start` also passes `getTitle()` to `addField` (line 194), so what the user sees depends on CmsForm and CmsTextBox, which are not part of this model | SitemapEntryEditor.TitleFieldDefaultUnused | SitemapEntryEditor.TitleFieldValue |
