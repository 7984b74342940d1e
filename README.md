# Image generator and editor: backup pipeline, prompt logic and generator view

A Dafny model of three core pieces of an image-generation web
application.

- **Backup and restore pipeline** (`services/backupService.ts`).
  - The export builds a versioned document from three stores: the gallery
    collection, the watermark collection and the watermark settings record.
  - The import validates an untrusted decoded JSON value with JavaScript's
    truthiness-based defaults.
  - The restore is destructive and ordered. It runs across the settings
    store (a string-to-string map) and the content store (two collections).
- **Prompt and response logic** around the generative-image API
  (`services/geminiService.ts`).
  - The quality suffix and the negative-prompt clause.
  - The scan of response parts for the last image and the last text.
  - The parts list of an edit request.
- **State rules of the generator view** (`components/GeneratorView.tsx`).
  - Template insertion.
  - The generate handler: the blank-prompt guard, the conditional
    watermark, the loading and error flags, and the session history.

The project has six modules:

- `Wrappers`: Option and Result.
- `Json`: the decoded JSON value, JavaScript truthiness, member access and
  `||` defaults.
- `JsString`: `trim`, `indexOf`/`includes`, and `replace` with a string
  pattern, including its `$` replacement patterns.
- `Backup`: the document type, validation, and the `Stores` class. The
  class holds the settings map and the two collections. Its store
  primitives also record each write in a ghost `trace`, so the order of a
  restore can be stated.
- `Gemini`: the prompt and response logic.
- `Generator`: the `GeneratorView` class, whose fields are the component's
  state.

Collaborators the core calls but does not define are parameters:

- `JSON.stringify` and `JSON.parse` of the settings text are `encode` and
  `decode`. The round trip is proved under `CodecRoundTrips`. It assumes
  only that a value `decode` produced, once encoded, decodes to the same
  value. It assumes nothing about other values, for instance numbers that
  no JSON text denotes.
- The image API is `GenerateApi`: a prompt and an aspect ratio give a
  response or an error message.
- The watermark renderer is `WatermarkRenderer`.
- The current instant `Date.now()` is the `now` argument.

Where the intent and the code differ, the model follows the code:

- `validateBackupFile` tests `typeof json !== 'object'`, and an array
  passes that test. An array input is therefore refused as an empty
  backup, not as a malformed one (`ValidateArray`).
- The defaults are `||` defaults, not type checks:
  - a truthy non-numeric `version` is kept;
  - a truthy non-object `watermarkSettings` is kept;
  - `version: 0` becomes 1;
  - an empty-string `timestamp` becomes the current time.
- `exportData` decodes the settings text before the emptiness check. An
  unreadable settings text fails the export even when there is nothing to
  export.

## Model

| member | source | states |
|---|---|---|
| Json.Truthy | services/backupService.ts:76-80 | The JavaScript falsy values are exactly null, false, 0 and the empty string. Every other value is truthy, including every array and object. |
| Json.Or | services/backupService.ts:76-80 | The or-default of a value read: a truthy value read is kept. Otherwise the result is the fallback. A truthy fallback makes the result truthy. |
| Json.ArrayOrEmpty | services/backupService.ts:78-79 | `Array.isArray(x) ? x : []`: an array read is passed through unchanged, and a non-empty result is always the array that was read. |
| Backup.Coerce | services/backupService.ts:75-81 | The coerced `version` is always truthy. The settings are null or truthy. A non-empty collection is exactly the object's own array field. A value that is not an object gives version 1, the current time, no records and null settings. |
| Backup.Validate | services/backupService.ts:64-96 | A read error and undecodable text are refused. A decoded value is refused as not an object exactly when it is neither an object nor an array. It is refused as empty exactly when it is object-typed and its coercion holds no record. Otherwise it is accepted, and the result is its coercion, which is never empty. |
| Backup.ValidateCoercion | services/backupService.ts:75-81 | For an accepted document, field by field: `version` and `timestamp` are kept when truthy and defaulted to 1 and to now otherwise. The collections are passed through when they are arrays and are empty otherwise. `watermarkSettings` is kept when truthy and is null otherwise. |
| Backup.ValidateArray | services/backupService.ts:71-85 | An array passes the object test and is always refused as empty. |
| Backup.ValidateAcceptsRecords | services/backupService.ts:83-87 | An object with at least one gallery or watermark record is accepted, whatever else it holds. |
| Backup.ValidateExamples | services/backupService.ts:75-85 | `{}` is refused as empty. `{"gallery":[{"id":"a"}]}` gives version 1, the current time, no watermarks, null settings and the one record. |
| Backup.ValidateToJson | services/backupService.ts:32-81 | Validating a written non-empty document succeeds and gives back both collections unchanged. Each truthy field is kept; only falsy fields take their defaults. |
| Backup.RestoreClearsFirst | services/backupService.ts:107-127 | A restore starts with the legacy-key removal and the two clears, whatever the document. No later write clears anything. The settings write is present exactly when the document has truthy settings, and each collection write exactly when that collection is non-empty. |
| Backup.CodecRoundTripsSatisfiable | services/backupService.ts:24 | The codec assumption can be met by a codec that refuses some text. Under it, stored settings can be unreadable as well as readable, so both sides of the round trip's success condition are reachable. |
| Backup.Stores.GetItem | services/backupService.ts:23 | `localStorage.getItem`: a value exactly when the key is stored, and then the stored text. |
| Backup.Stores.ExportData | services/backupService.ts:18-38 | Unreadable settings text fails the export. Readable settings with both collections empty give "nothing to export". Otherwise the document has version 1, timestamp now, both collections as stored, and the decoded settings, or null when the key is missing or empty. |
| Backup.Stores.RemoveItem | services/backupService.ts:107 | The key is removed and nothing else changes. |
| Backup.Stores.ClearAllImages | services/backupService.ts:108 | The gallery becomes empty and nothing else changes. |
| Backup.Stores.ClearAllWatermarks | services/backupService.ts:109 | The watermark collection becomes empty and nothing else changes. |
| Backup.Stores.SetItem | services/backupService.ts:113-115 | The key maps to the value and nothing else changes. |
| Backup.Stores.RestoreWatermarks | services/backupService.ts:118-121 | The records are appended unchanged to the watermark collection. |
| Backup.Stores.RestoreGallery | services/backupService.ts:124-127 | The records are appended unchanged to the gallery. |
| Backup.Stores.ClearData | services/backupService.ts:107-109 | The legacy key is removed, both collections are empty, and no other settings key changes. |
| Backup.Stores.WriteData | services/backupService.ts:112-127 | The settings key is written only for truthy settings. Each collection gains the document's records. The writes happen in the order settings, watermarks, gallery. |
| Backup.Stores.RestoreBackup | services/backupService.ts:102-135 | Afterwards each collection equals the document's, so it is empty when the document's is. The legacy key is gone. The settings key holds the encoded settings when the document has them and is untouched otherwise. No other key changes. The writes are the clears followed by the data writes. |
| Backup.Stores.BackupThenRestore | services/backupService.ts:18-127 | Export, validation of the written document, then restore. This succeeds exactly when the settings are readable and some record exists. On success both collections are reproduced. The legacy key is the only key removed, and no key other than the settings key changes value. The settings text is unchanged or decodes to the same value. On failure nothing is written. |
| JsString.TrimStart | components/GeneratorView.tsx:92 | The result is a suffix of the input, preceded only by whitespace, and does not itself start with whitespace. |
| JsString.TrimEnd | components/GeneratorView.tsx:92 | The result is a prefix of the input, followed only by whitespace, and does not itself end with whitespace. |
| JsString.TrimEmptyIffBlank | components/GeneratorView.tsx:40 | `s.trim()` is empty exactly when every character of `s` is ECMAScript whitespace. |
| JsString.Trim | components/GeneratorView.tsx:92 | `s.trim()` is no longer than `s` and neither starts nor ends with whitespace. |
| JsString.TrimShape | components/GeneratorView.tsx:92 | The trimmed string is the contiguous piece of the input between a leading and a trailing run of whitespace. |
| JsString.IndexOf | components/GeneratorView.tsx:90 | The result is the first index at or after `from` where the pattern occurs, or none when there is no occurrence. |
| JsString.IncludesIffOccurs | components/GeneratorView.tsx:90 | `includes` holds exactly when the pattern occurs somewhere. |
| JsString.Substitute | components/GeneratorView.tsx:93 | The replacement text with its `$$`, `$&`, `` $` `` and `$'` patterns expanded. Every character of the result comes from the replacement, the match, or the text before or after the match. |
| JsString.ReplaceFirst | components/GeneratorView.tsx:93 | `s.replace(pat, rep)`: without an occurrence, `s` is returned. Otherwise the text before the first occurrence and the text after it are kept at both ends of the result. |
| JsString.SubstituteLiteral | components/GeneratorView.tsx:93 | A replacement text without `$` is inserted literally. |
| JsString.ReplaceFirstLiteral | components/GeneratorView.tsx:93 | With a `$`-free replacement, only the first occurrence is replaced, and the text on either side is kept. |
| JsString.ReplaceFirstMatchedPattern | components/GeneratorView.tsx:93 | `$&` in the replacement re-inserts the matched text: for any string with an occurrence of the pattern, replacing it by `$&` gives the string back. |
| Generator.TemplateInsertion | components/GeneratorView.tsx:90-99 | A template with `{prompt}` yields the template with its first placeholder replaced by the trimmed prompt, and the text around it kept. A template without one yields the template itself. |
| Generator.GeneratorView.HandleApplyTemplate | components/GeneratorView.tsx:88-101 | The prompt becomes the filled-in template, or the template itself. The template panel is closed. Nothing else changes. |
| Generator.GeneratorView.SetPrompt | components/GeneratorView.tsx:131 | Only the prompt changes. |
| Generator.GeneratorView.SetAdvancedSettings | components/GeneratorView.tsx:140 | Only the advanced settings change. |
| Generator.GeneratorView.OpenTemplatePanel | components/GeneratorView.tsx:122 | Only the panel flag changes, to open. |
| Generator.GeneratorView.CloseTemplatePanel | components/GeneratorView.tsx:240 | Only the panel flag changes, to closed. |
| Generator.GeneratorView.constructor | components/GeneratorView.tsx:24-37 | The initial state: empty prompt, standard quality, ratio 1:1, no negative prompt, not loading, no result, no error, panel closed, empty history. |
| Generator.WatermarkOnlyWhenEnabled | components/GeneratorView.tsx:55-63 | The generated result is kept as it is unless it has an image URL, watermarking is enabled and a watermark is active. In that case its URL is the renderer's, or the renderer's failure is the outcome. |
| Generator.GenerateAndWatermark | components/GeneratorView.tsx:47-63 | Generating then conditionally watermarking gives exactly the outcome specified by `GenerateOutcome`. |
| Generator.GeneratorView.Settle | components/GeneratorView.tsx:65-76 | On success the result is shown, and put in front of the history when it has an image URL. On failure the error message, or the default message, is set. In both cases loading ends. |
| Generator.GeneratorView.RunGeneration | components/GeneratorView.tsx:42-76 | Uses the prompt and settings as they were when the handler started. Loading ends false. On success the result is shown, the error is cleared, and the history is prepended only for a result with an image URL. On failure the error is set, the result is empty and the history is unchanged. |
| Generator.GeneratorView.HandleGenerate | components/GeneratorView.tsx:39-77 | A blank prompt changes no state. Otherwise the outcome is as in `RunGeneration`. |
| Gemini.EnhancePrompt | services/geminiService.ts:33-45 | The result is the original prompt, then the quality part, then the negative part. It always starts with the original prompt. |
| Gemini.QualitySuffixIffHigh | services/geminiService.ts:36-38 | The quality suffix follows the original prompt exactly when the quality is 'high'. |
| Gemini.NegativeClauseIsNotQuality | services/geminiService.ts:36-42 | A negative clause never starts with the quality suffix, so the two parts cannot be confused. |
| Gemini.NegativeClauseIffNotBlank | services/geminiService.ts:40-42 | The negative clause comes after the quality part. It is present exactly when the negative prompt is given and not blank, and then it embeds the trimmed text. |
| Gemini.PlainPromptUnchanged | services/geminiService.ts:33-45 | With any quality but 'high' and a missing or blank negative prompt, the prompt is unchanged. |
| Gemini.ParseResponse | services/geminiService.ts:13-28 | The result is the data URL of the last inline-data part and the text of the last text part. Both are null when candidates, content or parts are missing. |
| Gemini.LastImageUrlIsLast | services/geminiService.ts:18-20 | The image URL is `data:<mime>;base64,<data>` of the last part that has inline data. |
| Gemini.LastImageUrlNone | services/geminiService.ts:17-24 | There is no image URL exactly when no part has inline data. |
| Gemini.LastTextIsLast | services/geminiService.ts:19-23 | The text output is the text of the last part that has non-empty text and no inline data. |
| Gemini.LastTextNone | services/geminiService.ts:19-23 | There is no text output exactly when no part is such a text part. |
| Gemini.ImagePartGivesNoText | services/geminiService.ts:19-23 | A part with inline data leaves the text output as it was, even when it carries text, and sets the image URL. |
| Gemini.BuildEditParts | services/geminiService.ts:98-106 | There are as many parts as images plus one. The image parts come first, in input order, then exactly one text part with the prompt. |
| Gemini.EditRequestParts | services/geminiService.ts:94-106 | The edit request's parts are the images, then the prompt enhanced for quality only, with no negative prompt. |
| Gemini.GenerateImageFromText | services/geminiService.ts:50-76 | The API is asked with the enhanced prompt. A response is parsed. A failure carries its message, or the default message, which is never empty. |

## Left out

- Browser I/O in `exportData` is left out: the Blob, the object URL, the download link and its date-stamped file name. The model returns the document that would be written.
- `FileReader` and `JSON.parse` of the imported file are left out. Validation starts from `FileContent`: a read error, text that is not JSON, or the decoded value.
- The JSON text format of the settings record is left out. There, `JSON.stringify` (services/backupService.ts:114) and `JSON.parse` (line 24) are the `encode` and `decode` parameters.
- Backup.Stores.BackupThenRestore: takes the backup file's own `JSON.stringify` (line 41) and `JSON.parse` (line 69) as lossless. The document `ToJson` builds is validated directly, as if it had been written and read back. The records are therefore assumed to be JSON values. A record holding a Blob, a Date, an `undefined` field or a non-finite number would not survive the file, and the round trip does not cover it.
- The content store's internals are not part of this model. That store keys records by `id` in IndexedDB, and its module is not among the files modelled. The two collections are sequences: clearing empties one, and restoring appends the records unchanged. Two records that share an `id` would be kept as one by the real store, but both stay in the model's sequence. The order in which the real store reads records back is the store's own, not the insertion order the sequences keep. Neither duplicate ids nor that ordering is modelled.
- Store failures and their rethrow are left out. This covers the `catch` in `restoreBackup` that wraps an error as a restore failure, and the rejection of `getAllImages` or `getAllWatermarks`. Every store operation succeeds in the model.
- Async/await interleaving and React's batched state updates are left out. Each handler runs to completion against the state of its render, and the transient loading-true state is not observable.
- The network calls of `generateImageFromText`, `editImageWithPrompt`, `createMontage` and `analyzeImageDifference` are left out. Only the request text or parts and the answer handling are modelled, with the API as a parameter. The montage and analysis functions are not part of this model.
- `applyWatermarkToImage` (canvas drawing) is not part of this model; it is the `render` parameter.
- `console.log` and `console.error` output is left out.
- Strings are sequences of Unicode scalar values, not UTF-16 code units. Characters outside the Basic Multilingual Plane count as one element, not two. Lone surrogate code units, which a JavaScript string can hold, cannot be represented at all.
- The rest of the generator view is left out: the rendering, the download helper and the quick-edit callback. They only display state.
