# Storybook editor core, modelled in Dafny

This project models the sequential logic of a small browser storybook editor. Users write picture-book pages, reorder them, generate illustrations through an AI service and read the result as a book. The model has six modules:

- `Types` (`types.dfy`): the `StoryPage` and `CoverData` records, an `Option`, and JavaScript truthiness of an optional string.
- `Base64` (`base64.dfy`): the browser's `btoa` and `atob`.
  - It uses the Base64 alphabet of section 4 of RFC 4648.
  - It decodes with the WHATWG "forgiving-base64 decode" algorithm.
  - A thrown exception is `None`.
- `Crypto` (`crypto.dfy`): the API-key obfuscation codec of `src/utils/crypto.ts`.
  - The codec: Base64, then XOR with the cycled key `"storybook-creator-2024"`, then Base64 again.
  - Each failure path yields `''`.
  - The one session-storage slot holding the obfuscated key is the class `SessionKeyVault`.
  - The character loop both functions run is the `for` method `XorLoop`, proved equal to the per-index specification `XorWithKey`.
- `Editor` (`editor.dfy`): the `Editor` component as a class.
  - Its props are constants: the page list, the title, which optional callbacks are present, and the vault.
  - Its React state hooks are fields.
  - Calls to parent callbacks, browser alerts and AI requests are appended to logs (`calls`, `alerts`, `aiCalls`), so each handler's full effect is stated.
  - Each AI request carries the value of the `generatingImageFor` marker at the time it was sent.
  - A drop's two `splice` calls are proved to equal `Moved`, an independent pointwise definition of "move one element". Permutation, position and order properties are proved about `Moved`.
- `BookViewer` (`book_viewer.dfy`): the reader's bounded spread counter as a class.
  - Spread selection and page numbers are pure functions of the index.
- `ApiKeySettings` (`api_key_settings.dfy`): the key settings panel as a class.
  - It includes ECMAScript `trim` (white space and line terminators) and `startsWith`.

Main results:
- `Decrypt(Encrypt(k)) == k` for every Latin-1 `k` (`Crypto.DecryptEncrypt`). It rests on XOR being an involution and on `atob` inverting `btoa`.
- After saving a non-empty Latin-1 key, reading gives it back (`Crypto.SaveThenGet`).
- A drop is a permutation that puts the dragged page at the drop index and keeps the other pages in order.
- Reading from the cover visits every page once, with contiguous page numbers.
- A key accepted by the settings panel is stored trimmed and still starts with `"AIza"`.

A consequence of the code as written (`ApiKeySettings.NonLatin1KeyIsLost`): a key such as `"AIza€"` passes both checks of `handleSaveKey`, so the panel reports it saved. But `btoa` rejects it, `''` is stored, and `getApiKey` then returns `null`.

Environment effects are modelled as follows:
- Browser APIs become fields or parameters.
- `sessionStorage` is the vault's `slot`.
- `alert` and `onApiKeySet` are logs.
- `window.confirm` is the boolean parameter `confirmed`.
- The two AI calls are an `AiOutcome` parameter: the prompt call fails, the image call fails, or both succeed.

## Model

| member | source | states |
|---|---|---|
| Base64.Btoa | src/utils/crypto.ts:10 | `btoa` succeeds exactly on strings whose characters are all at most U+00FF; its output is ASCII and its length is a multiple of 4 |
| Base64.Encode | src/utils/crypto.ts:17 | the Base64 text has length divisible by 4 and consists of alphabet symbols and `=` only |
| Base64.StripWhitespace | src/utils/crypto.ts:25 | the first step of `atob` leaves no ASCII whitespace, makes the text no longer, and changes nothing in text without whitespace |
| Base64.StripWhitespaceKeeps | src/utils/crypto.ts:25 | removing whitespace keeps every other character exactly as often as it occurs in the input |
| Base64.StripWhitespaceAppend | src/utils/crypto.ts:25 | removing whitespace works piece by piece, so the kept characters stay in their input order |
| Base64.StripPaddingKeeps | src/utils/crypto.ts:25 | removing padding keeps a prefix and drops at most two characters, each of them `=` |
| Base64.DecodeSyms | src/utils/crypto.ts:25 | decoding well-formed symbols yields one-byte characters |
| Base64.Atob | src/utils/crypto.ts:25 | whatever `atob` returns is a Latin-1 string |
| Base64.AtobRejectsForeign | src/utils/crypto.ts:25 | `atob` throws on any input holding a character that is not an alphabet symbol, not ASCII whitespace and not `=` |
| Base64.DecodeEncode | src/utils/crypto.ts:32 | decoding the unpadded symbols of `Encode(s)` gives back `s`; the unpadded symbols are well-formed |
| Base64.AtobBtoa | src/utils/crypto.ts:32 | `atob(btoa(s)) == s` for every string `btoa` accepts |
| Crypto.Xor | src/utils/crypto.ts:14 | the `^` of two character codes is zero exactly when the codes are equal |
| Crypto.KeyCode | src/utils/crypto.ts:14 | the key character used at index `i` is `ENCRYPTION_KEY[i % 22]`, an ASCII code |
| Crypto.XorInvolution | src/utils/crypto.ts:14 | `(a ^ b) ^ b == a` for all non-negative integers |
| Crypto.XorBelow | src/utils/crypto.ts:14 | XOR of two `n`-bit numbers is an `n`-bit number |
| Crypto.XorChar | src/utils/crypto.ts:13-15 | one loop step XORs the character code with the key code; the result stays below 256, and below 128 for ASCII input |
| Crypto.XorWithKey | src/utils/crypto.ts:12-16 | the XOR pass keeps the length, keeps Latin-1 strings Latin-1 and ASCII strings ASCII |
| Crypto.XorWithKeyInvolution | src/utils/crypto.ts:27-31 | applying the XOR pass twice gives back the input |
| Crypto.XorLoop | src/utils/crypto.ts:12-16 | the character-by-character loop builds exactly `XorWithKey` of its input |
| Crypto.Encrypt | src/utils/crypto.ts:7-21 | the value of `encryptApiKey`: ASCII, of length divisible by 4 |
| Crypto.Decrypt | src/utils/crypto.ts:23-36 | the value of `decryptApiKey`: always a Latin-1 string |
| Crypto.EncryptApiKey | src/utils/crypto.ts:7-21 | the method with its loop returns `Encrypt(apiKey)`, `''` on either `btoa` failure |
| Crypto.DecryptApiKey | src/utils/crypto.ts:23-36 | the method with its loop returns `Decrypt(encrypted)`, `''` on either `atob` failure |
| Crypto.EncodeEmpty | src/utils/crypto.ts:10 | Base64 of a string is empty exactly when the string is |
| Crypto.OuterBtoaSucceeds | src/utils/crypto.ts:17 | the second `btoa` never throws on a Latin-1 key, because the XORed Base64 text is ASCII |
| Crypto.EncryptEmptyIff | src/utils/crypto.ts:18-20 | `encryptApiKey(k) == ''` exactly when `k` is empty or has a character above U+00FF |
| Crypto.DecryptEncrypt | src/utils/crypto.ts:7-36 | `decryptApiKey(encryptApiKey(k)) == k` for every Latin-1 `k` |
| Crypto.DecryptMalformed | src/utils/crypto.ts:33-35 | a run of alphabet symbols of length 1 modulo 4 makes `atob` throw, so `decryptApiKey` returns `''` |
| Crypto.DecryptForeign | src/utils/crypto.ts:25-35 | a stored value with a character outside the Base64 alphabet, whitespace and `=` makes the first `atob` throw, so `decryptApiKey` returns `''` |
| Crypto.StoredApiKey | src/utils/crypto.ts:45-49 | `getApiKey` is `null` exactly when the slot is absent or holds `''` |
| Crypto.SessionKeyVault.SaveApiKey | src/utils/crypto.ts:40-43 | the slot afterwards holds `encryptApiKey(apiKey)` |
| Crypto.SessionKeyVault.GetApiKey | src/utils/crypto.ts:45-49 | returns `StoredApiKey(slot)` and changes nothing |
| Crypto.SessionKeyVault.ClearApiKey | src/utils/crypto.ts:51-53 | the slot is removed, so `getApiKey` then returns `null` |
| Crypto.SaveThenGet | src/utils/crypto.ts:40-49 | after `saveApiKey(k)`, `getApiKey` returns `k` when `k` is non-empty and Latin-1, and `null` otherwise |
| Crypto.GetMalformed | src/utils/crypto.ts:45-49 | a malformed stored value reads back as `''`, not as `null` |
| Editor.RemoveAt | src/components/Editor.tsx:162 | `splice(i, 1)` drops exactly the element at `i`, shifting the later ones down |
| Editor.InsertAt | src/components/Editor.tsx:163 | `splice(i, 0, x)` puts `x` at index `i`, shifting the later ones up |
| Editor.SpliceMoveIsMoved | src/components/Editor.tsx:161-164 | the two splices of a drop equal the pointwise move `Moved(pages, from, to)` |
| Editor.SplicePreservesMultiset | src/components/Editor.tsx:161-163 | taking a page out and inserting it again keeps the multiset of pages |
| Editor.MovedIsPermutation | src/components/Editor.tsx:161-164 | a drop yields a permutation of the pages: same length, same multiset |
| Editor.MovedPositions | src/components/Editor.tsx:162-163 | the dragged page lands at the drop index; pages outside the two indices keep their exact positions |
| Editor.MovedKeepsOrder | src/components/Editor.tsx:161-163 | the other pages keep their relative order |
| Editor.MovedInverse | src/components/Editor.tsx:157-168 | dropping the page back at its original index restores the original list |
| Editor.PromptTitle | src/components/Editor.tsx:184 | the title sent to the prompt call is never empty, and is the book's title whenever that is non-empty |
| Editor.AttemptCalls | src/components/Editor.tsx:180-188 | an attempt sends the prompt request first, with the title defaulting to "Children's storybook", and the image request only if the prompt call succeeded, carrying the key and the prompt that call returned; every request carries the marker |
| Editor.Editor.constructor | src/components/Editor.tsx:34-52 | the initial state: empty buffers, scales 1, no drag, no marker |
| Editor.Editor.HandleAddPage | src/components/Editor.tsx:81-90 | does nothing when the text is empty and the image is falsy; otherwise forwards (image, scale, text) once and resets the buffer to `''`/null/1 |
| Editor.Editor.SetCurrentText | src/components/Editor.tsx:418 | typing in the new-page text area replaces the new-page text and nothing else |
| Editor.Editor.RemoveCurrentImage | src/components/Editor.tsx:355-361 | the new-page image's remove button clears the image and resets its scale to 1, nothing else |
| Editor.Editor.SetEditText | src/components/Editor.tsx:651 | typing in the edit modal's text area replaces the edit text and nothing else |
| Editor.Editor.RemoveEditImage | src/components/Editor.tsx:585-591 | the edit modal's remove button clears the edit image and resets its scale to 1, nothing else |
| Editor.Editor.OpenEditModal | src/components/Editor.tsx:93-98 | copies the page, its text, image and scale into the edit buffer |
| Editor.Editor.CloseEditModal | src/components/Editor.tsx:101-109 | empties the edit buffer; nothing else changes |
| Editor.Editor.SavePageEdit | src/components/Editor.tsx:112-121 | sends the buffer's text, image and scale for the edited page's id and closes the modal; with no edited page or no update callback it changes nothing |
| Editor.Editor.HandleDragStart | src/components/Editor.tsx:137-141 | sets only the dragged index |
| Editor.Editor.HandleDragOver | src/components/Editor.tsx:144-148 | sets only the hovered index |
| Editor.Editor.HandleDragEnd | src/components/Editor.tsx:151-154 | resets both drag indices |
| Editor.Editor.HandleDrop | src/components/Editor.tsx:157-168 | no drag, a drop on the dragged index, or no reorder callback: nothing changes; otherwise sends `Moved(pages, dragged, drop)` once and resets both indices |
| Editor.Editor.Attempt | src/components/Editor.tsx:177-203 | sets the marker while the requests go out, alerts on either failure, and leaves the marker `null` in every case |
| Editor.Editor.HandleGenerateImage | src/components/Editor.tsx:171-204 | with no key: only the alert, and the marker is never set; otherwise the requests under the page id, then the image goes into the edit buffer (modal) or to `onUpdatePage` with scale 1, or a failure alert; the marker ends `null` |
| Editor.Editor.HandleGenerateNewPageImage | src/components/Editor.tsx:207-238 | empty text is rejected before the key is read; with no key only the alert; otherwise the requests under the marker `"new"`, then the image goes into the new-page buffer with scale 1, or a failure alert; the marker ends `null` |
| Editor.DragGesture | src/components/Editor.tsx:137-168 | a drag from one index dropped on another sends the moved list once and returns the drag state to idle |
| Editor.TypeThenAdd | src/components/Editor.tsx:81-90 | typing a text and pressing add forwards that text with the buffer's image and scale once and empties the buffer, unless the text is empty and there is no image |
| Editor.EditRoundTrip | src/components/Editor.tsx:93-121 | opening a page and saving it unchanged sends exactly that page's text, image and scale for its id |
| BookViewer.TotalSpreads | src/components/BookViewer.tsx:17 | a book has a spread per page plus the two covers, so at least two |
| BookViewer.PrevDisabled | src/components/BookViewer.tsx:67 | the left arrow is disabled exactly where `goToPrev` would not move |
| BookViewer.NextDisabled | src/components/BookViewer.tsx:163 | within range, the right arrow is disabled exactly where `goToNext` would not move |
| BookViewer.Shown | src/components/BookViewer.tsx:88-127 | an image is shown exactly when it is truthy (present and non-empty), and then it is the page's or cover's own image |
| BookViewer.NextIndex | src/components/BookViewer.tsx:19-23 | `goToNext` moves one spread on or stays, and stays within `[0, pages.length + 1]` |
| BookViewer.PrevIndex | src/components/BookViewer.tsx:25-29 | `goToPrev` moves one spread back or stays |
| BookViewer.SpreadAt | src/components/BookViewer.tsx:77-151 | index 0 is exactly the front cover, whose title is never empty and is the book's title when set; the last index is exactly the back cover; spread `i` otherwise shows `pages[i - 1]`'s text and scale numbered `2i - 1` and `2i` |
| BookViewer.Advance | src/components/BookViewer.tsx:19-23 | repeated `goToNext` never leaves the valid range |
| BookViewer.Retreat | src/components/BookViewer.tsx:25-29 | repeated `goToPrev` never moves forward |
| BookViewer.ArrowsMatchHandlers | src/components/BookViewer.tsx:67-163 | `goToNext` moves exactly when the right arrow is enabled; `goToPrev` moves exactly when the left arrow is enabled |
| BookViewer.NextPrevInverse | src/components/BookViewer.tsx:19-29 | previous undoes next except on the back cover; next undoes previous except on the front cover |
| BookViewer.AdvanceClamps | src/components/BookViewer.tsx:19-23 | `k` presses of next from `i` reach `min(i + k, pages.length + 1)`; from the cover, `pages.length + 1` presses reach the back cover and more change nothing |
| BookViewer.RetreatClamps | src/components/BookViewer.tsx:25-29 | `k` presses of previous from `i` reach `max(i - k, 0)` |
| BookViewer.ReadingShowsEveryPage | src/components/BookViewer.tsx:122-156 | reading on from the cover, spread `k + 1` shows page `k` with numbers `2k + 1` and `2k + 2`, and spread `pages.length + 1` is the back cover |
| BookViewer.PageNumbersContiguous | src/components/BookViewer.tsx:138-151 | a story spread's right number is its left number plus one; numbers start at 1 and continue across spreads without gaps |
| BookViewer.BookViewer.constructor | src/components/BookViewer.tsx:16-17 | the viewer opens at index 0, within range |
| BookViewer.BookViewer.Current | src/components/BookViewer.tsx:77-156 | index 0 shows the front cover, index `totalSpreads - 1` the back cover, any other index `i` the text of `pages[i - 1]` |
| BookViewer.BookViewer.GoToNext | src/components/BookViewer.tsx:19-23 | the index becomes `NextIndex` of the old index; the range invariant is kept |
| BookViewer.BookViewer.GoToPrev | src/components/BookViewer.tsx:25-29 | the index becomes `PrevIndex` of the old index; the range invariant is kept |
| BookViewer.ReadTwoPageBook | src/components/BookViewer.tsx:17-29 | in a two-page book, two presses of next from the cover show the second page numbered 3 and 4, the third reaches the back cover, and a fourth leaves the index at 3 |
| ApiKeySettings.TrimStart | src/components/ApiKeySettings.tsx:25 | the result is a suffix of the input that does not start with white space; only white space was removed |
| ApiKeySettings.TrimEnd | src/components/ApiKeySettings.tsx:25 | the result is a prefix of the input that does not end with white space; only white space was removed |
| ApiKeySettings.Trim | src/components/ApiKeySettings.tsx:25 | `trim` never lengthens its input and leaves a string without white space unchanged |
| ApiKeySettings.StartsWith | src/components/ApiKeySettings.tsx:30 | `startsWith` holds exactly when the prefix is no longer than the string and agrees with it character by character |
| ApiKeySettings.TrimIsSlice | src/components/ApiKeySettings.tsx:35 | `trim` keeps one contiguous slice of the input |
| ApiKeySettings.TrimRemovesOnlyWhitespace | src/components/ApiKeySettings.tsx:35 | every character `trim` drops, before or after the kept slice, is white space |
| ApiKeySettings.TrimEndsNotWhitespace | src/components/ApiKeySettings.tsx:35 | a non-empty trimmed string neither starts nor ends with white space |
| ApiKeySettings.TrimEmptyIff | src/components/ApiKeySettings.tsx:25-28 | the empty check rejects exactly the inputs made only of white space |
| ApiKeySettings.AcceptedKeyKeepsPrefix | src/components/ApiKeySettings.tsx:30-35 | an input that passes the untrimmed `"AIza"` check still starts with `"AIza"` after trimming, and is non-empty |
| ApiKeySettings.LeadingWhitespaceRejected | src/components/ApiKeySettings.tsx:30-33 | an input with leading white space fails the prefix check |
| ApiKeySettings.AcceptedKeyReadsBack | src/components/ApiKeySettings.tsx:35 | an accepted key whose trimmed form is Latin-1 reads back from the vault, trimmed |
| ApiKeySettings.NonLatin1KeyIsLost | src/components/ApiKeySettings.tsx:35-39 | an accepted key with a character above U+00FF is stored as `''` and reads back as `null` |
| ApiKeySettings.Validate | src/components/ApiKeySettings.tsx:24-33 | an input is rejected, with an error message, unless it trims to non-empty and starts with `"AIza"` |
| ApiKeySettings.ApiKeySettings.constructor | src/components/ApiKeySettings.tsx:10-13 | the initial state: empty field, key hidden, no stored key, no message |
| ApiKeySettings.ApiKeySettings.Mount | src/components/ApiKeySettings.tsx:15-22 | a truthy stored key sets `hasStoredKey`, clears the field and raises `onApiKeySet(true)`; otherwise nothing changes |
| ApiKeySettings.ApiKeySettings.SetApiKey | src/components/ApiKeySettings.tsx:93 | typing replaces the field and nothing else |
| ApiKeySettings.ApiKeySettings.ToggleShowKey | src/components/ApiKeySettings.tsx:99 | the eye button flips `showKey` and nothing else |
| ApiKeySettings.ApiKeySettings.HandleSaveKey | src/components/ApiKeySettings.tsx:24-42 | a rejected input sets the matching error message and saves nothing; an accepted one stores `encryptApiKey(trim(input))`, sets `hasStoredKey`, clears the field, shows the saved message and raises `onApiKeySet(true)` |
| ApiKeySettings.ApiKeySettings.Accept | src/components/ApiKeySettings.tsx:35-39 | the accepting branch: the key is saved and the panel state updated as above |
| ApiKeySettings.ApiKeySettings.HandleClearKey | src/components/ApiKeySettings.tsx:44-52 | declining the confirmation changes nothing; confirming removes the slot, clears `hasStoredKey`, shows the cleared message and raises `onApiKeySet(false)` |

## Left out

- JSX rendering, CSS classes and styling are not modelled, except which spread is shown and its page numbers.
- The arrow buttons' `disabled` attribute is not modelled as a guard. `BookViewer.ArrowsMatchHandlers` shows it would change nothing.
- The generate buttons' `disabled={generatingImageFor === …}` guard lives in JSX. Because each handler is modelled as one atomic step, a second click during an `await` is not represented.
- The interleaving of other events with the `await`s inside the two generation handlers is not modelled. Each handler runs to completion in one step.
- `FileReader` image uploads (`handleImageUpload`, `handleCoverImageUpload`, `handleEditImageUpload`) are browser I/O.
- Title and cover edits go to the parent's setters (`setTitle`, `setCoverData`). The cover's remove button first resets the cover image to null and its scale to 1 (src/components/Editor.tsx:280-282). The cover slider first replaces only the scale (src/components/Editor.tsx:314). None of this is modelled, because the cover state belongs to the parent app, which is not part of this model.
- Deleting a page, preview and finish call the parent's callbacks and are not modelled.
- `generateImagePrompt` and `generateImage` are network calls. src/services/geminiService.ts is not part of this model. Their results are the `AiOutcome` parameter. `console.error` is left out.
- `setTimeout` message expiry after 3 seconds is not modelled, because it is timing.
- Image scales are an opaque `real` carried by the buffers. The sliders' `parseFloat` and percentage display are floating-point presentation.
- `ENCRYPTION_KEY` `charCodeAt` on UTF-16 code units: strings are modelled as sequences of Unicode scalar values. For the Latin-1 and ASCII strings the codec handles, the two coincide.
- The storage key name `gemini-api-key-encrypted` is kept as a constant only. The vault is one slot, not a key-value store.
- Editor.Editor.HandleDrop: requires the dragged and drop indices to name pages of the current list. A page list that shrinks during a drag, which would make `splice` behave differently, is not modelled.
- Editor.Editor.HandleDragStart: requires the index to name a page of the list, which the page list's own rendering guarantees in the source. Editor.Editor.HandleDragOver requires the same.
- Editor.Editor.HandleGenerateImage: the page text is passed as given. The JSX rule that a page without text cannot start a generation is not modelled.
- The XOR transform is not claimed to be secure. The source itself calls it an obfuscation.
