# Port Pulse newsletter editor: a Dafny model

Port Pulse is a small React application. A communications team uses it to write a
monthly internal newsletter and export it as one self-contained HTML email. This
project models the two parts of the application that are logic rather than UI:

- **The email exporter** (`generateEmailHtml` and `escapeAttr`), modelled as pure
  functions in `escape.dfy` and `email_export.dfy`. The content record becomes a
  document as follows:
  - plain-text fields are escaped, which turns `"`, `<` and `>` into character
    references and leaves `&` alone;
  - the nine rich-text fields pass through the HTML sanitizer;
  - each optional image appears only when its field is set;
  - blank quick-link slots are dropped;
  - the finished template literal is trimmed.

  The logo URL, image sources and the background URL are embedded as given, not
  escaped, and the model keeps that.
- **The editor state** (`App.jsx`), modelled in `editor.dfy` as the class
  `Editor.Editor`. It has the four pieces of component state: the content record, the
  saved issues, the selected issue id and the crop request. Each handler is a method
  with a `modifies` frame, and its contract gives the whole new state in terms of the
  old.

The remaining files hold shared definitions:

- `content.dfy`: the content record and its field updates;
- `sample_content.dfy`: the sample issue a fresh editor starts with;
- `text.dfy`: JavaScript's `String.prototype.trim` and joining pieces of text;
- `wrappers.dfy`: an `Option` type.

Some behaviour lies outside the application's own code, so the model takes it as
parameters:

- the sanitizer, which is DOMPurify with an allow-list;
- the conversion of the opacity number to text;
- the clock (`Date.now()` as text, and `toISOString()`);
- the contents of the chosen picture file;
- the value read from `localStorage` at startup.

Fields the application may leave `undefined` are modelled as `""`. Every reader treats
the two alike: the default parameters of `escapeAttr` and `sanitizeHtml`, and the
falsy tests. `quickLinks` and `backgroundOpacity` are optional values, because the
code tests for their absence separately.

The exporter's fixed markup is the record `Markup`, holding the text between the
interpolations, and `Template` is the application's markup. The template is cut into
54 pieces. The 22 interpolated values (`Values`) are computed once by `Interpolate`.
The properties of the document shape are proved for every `Markup` that starts and
ends with white space around a visible document. They are then applied to `Template`.

## Model

| member | source | states |
|---|---|---|
| Escape.EscapeAttrIsEscapeEach | src/components/HtmlExportPanel.jsx:4-9 | The chain of three global `replace` calls equals escaping one character at a time: `"` becomes `&quot;`, `<` becomes `&lt;`, `>` becomes `&gt;`, and every other character, `&` included, stays as it is and in order |
| Escape.EscapeAttrNoSpecial | src/components/HtmlExportPanel.jsx:4-9 | The output of `escapeAttr` contains no `"`, `<` or `>` |
| Escape.EscapeAttrFixedIff | src/components/HtmlExportPanel.jsx:4-9 | `escapeAttr` leaves a string unchanged exactly when the string has none of the three characters |
| Escape.EscapeAttrIdempotent | src/components/HtmlExportPanel.jsx:4-9 | Escaping an escaped string changes nothing |
| Escape.EscapeAttrLength | src/components/HtmlExportPanel.jsx:5-8 | The output length is the input length plus 5 per `"` and 3 per `<` or `>` |
| Escape.EscapeAttrAppend | src/components/HtmlExportPanel.jsx:5-8 | Escaping distributes over concatenation |
| Escape.EscapeAttrNotInjective | src/components/HtmlExportPanel.jsx:5-8 | Because `&` is not escaped, a `"` and the text `&quot;` escape to the same output |
| Escape.EscapeAttrCount | src/components/HtmlExportPanel.jsx:4-9 | An escaped text has zero occurrences of each of the three characters |
| Text.Trim | src/components/HtmlExportPanel.jsx:340 | `trim()` gives an empty result exactly when the input is all white space; a non-empty result starts and ends with a non-white-space character |
| Text.TrimFramed | src/components/HtmlExportPanel.jsx:340 | Trimming a text that starts and ends with a visible character, with white space of any length on either side, gives exactly that text |
| Text.TrimNonEmptyIff | src/components/HtmlExportPanel.jsx:50 | `s.trim().length > 0` holds exactly when `s` has a character that is not white space |
| EmailExport.LogoSrc | src/components/HtmlExportPanel.jsx:49-52 | The logo source is `logoUrl` itself, unescaped, when it has a visible character, and the placeholder URL otherwise |
| EmailExport.BackgroundRepeat | src/components/HtmlExportPanel.jsx:57 | Repeat is `repeat` exactly when the mode is `'repeat'`, and `no-repeat` otherwise |
| EmailExport.BackgroundSize | src/components/HtmlExportPanel.jsx:58 | Size is `cover` exactly for `'cover'`, `contain` exactly for `'contain'`, and `auto` exactly for any other mode |
| EmailExport.BackgroundStyle | src/components/HtmlExportPanel.jsx:54-61 | The background CSS is empty exactly when there is no background image; otherwise it is the four declarations in order: `background-image` with the URL as given, `background-repeat` and `background-size` with the values the mode selects, and `background-position: center` |
| EmailExport.OverlayOpacity | src/components/HtmlExportPanel.jsx:63 | The opacity is the stored value whenever one is present, 0 included, and 0.15 when it is absent |
| EmailExport.BackgroundRow | src/components/HtmlExportPanel.jsx:97-104 | The background row is emitted exactly when `backgroundImage` is non-empty, and then its cell style is `bgStyle` followed by the absolute positioning and the overlay opacity as text |
| EmailExport.BackgroundRowSettings | src/components/HtmlExportPanel.jsx:54-63 | With a background image, the row holds the URL as given, `repeat` and `auto` for the mode `'repeat'`, `no-repeat` and `cover` for `'cover'`, and the stored opacity or 0.15 when none is stored |
| EmailExport.QuickLinkRow | src/components/HtmlExportPanel.jsx:70-75 | A link's row is the fixed row markup with the link's href in the `href` attribute and its text inside the anchor |
| EmailExport.QuickLinkRowReadBack | src/components/HtmlExportPanel.jsx:70-75 | Two equal rows have equal hrefs and equal texts: neither escaped value can hold the `"` that closes the attribute or the `<` that closes the anchor, so a row cannot be read two ways |
| EmailExport.LinkHref | src/components/HtmlExportPanel.jsx:73 | The href is `#` for a slot without a URL and the escaped URL otherwise; it never contains `"`, `<` or `>`, and a clean URL passes unchanged |
| EmailExport.LinkText | src/components/HtmlExportPanel.jsx:73 | The link text is `Link` for a slot without a label and the escaped label otherwise; it never contains `"`, `<` or `>` |
| EmailExport.ShownLinks | src/components/HtmlExportPanel.jsx:68 | The filter keeps exactly the slots that have a label or a URL, and no others |
| EmailExport.RowList | src/components/HtmlExportPanel.jsx:69-76 | There is one row per shown link; row `i` is the row for link `i` |
| EmailExport.QuickLinksHtml | src/components/HtmlExportPanel.jsx:65-78 | A missing or empty list gives `""`; any other list gives the joined rows of its shown slots |
| EmailExport.ShownLinksAppend | src/components/HtmlExportPanel.jsx:68 | Filtering keeps the original order: filtering a concatenation is concatenating the filtered parts |
| EmailExport.BlankLinksNoRows | src/components/HtmlExportPanel.jsx:65-78 | A list whose slots are all blank renders no row |
| EmailExport.ShownLinksSkipBlank | src/components/HtmlExportPanel.jsx:68 | The filter drops the blank slots on either side of a filled one |
| EmailExport.QuickLinksSkipBlank | src/components/HtmlExportPanel.jsx:65-78 | A filled slot between two blank slots renders as its own row alone |
| EmailExport.Img | src/components/HtmlExportPanel.jsx:80-83 | The `img` helper gives `""` exactly for an empty source; otherwise a tag that begins with the raw `src` and the escaped `alt` |
| EmailExport.OptionalImage | src/components/HtmlExportPanel.jsx:154-162 | The wrapped image is empty exactly when its source is empty; otherwise it is the opening wrapper, the `img` tag for that source, alt text and extra style, and the closing wrapper |
| EmailExport.Layout | src/components/HtmlExportPanel.jsx:156-160 | The fixed arguments of each inline image (also at lines 194-198, 245-246 and 267-268): every alt text is non-empty and free of `"`, `<` and `>`; only the leadership and compliance pictures have a wrapper, and each wrapper has both ends; the first picture of each pair carries the bottom margin and the second does not |
| EmailExport.ImageMarkup | src/components/HtmlExportPanel.jsx:192-200 | Each inline image field contributes markup exactly when it is non-empty, and that markup is its layout's wrapper around `img(src, alt, extra)` with the field as the source |
| EmailExport.Interpolate | src/components/HtmlExportPanel.jsx:90-123 | The newsletter name, the edition, the issue title and the leadership title are `escapeAttr` of their fields and contain no `"`, `<` or `>`; a missing issue title renders as empty text; the logo value is `logoUrl` when visible and the placeholder otherwise; the background value is the background row and the quick-links value is the rows of the shown links |
| EmailExport.Pieces | src/components/HtmlExportPanel.jsx:85-339 | The template literal is cut at its interpolations into 54 pieces |
| EmailExport.GenerateEmailHtml | src/components/HtmlExportPanel.jsx:85-340 | The exported document begins with `<!DOCTYPE html>`, ends with `</html>`, and has no white space at either end |
| EmailExport.RenderFramed | src/components/HtmlExportPanel.jsx:85-86 | For any framed markup, trimming removes exactly the line break before the doctype and the indentation after `</html>` |
| EmailExport.SlotHoldsValue | src/components/HtmlExportPanel.jsx:146-268 | Each rich-text section and each image has its own piece of the document, holding that field's value |
| EmailExport.ValueOfField | src/components/HtmlExportPanel.jsx:39-47 | The value of each rich-text field is the sanitizer's output for it; the value of each image field is empty exactly when the field is empty; an inline image's value is its image markup and the background's value is the background row |
| EmailExport.PieceOfField | src/components/HtmlExportPanel.jsx:146-268 | In the exported document, every rich-text section is `sanitizeHtml(field)`, every image section is empty exactly when its field is empty, each inline image section is that field's image markup, and the background section is the background row |
| EmailExport.InterpolateOnlySanitized | src/components/HtmlExportPanel.jsx:39-47 | Whatever the sanitizer does, the values of a record equal the values of its sanitized copy taken with no sanitizer: no rich-text field reaches the document unsanitized |
| EmailExport.RichTextOnlySanitized | src/components/HtmlExportPanel.jsx:39-47 | Exporting a record equals exporting its sanitized copy with the identity sanitizer |
| EmailExport.RenderTitle | src/components/HtmlExportPanel.jsx:86-90 | For any framed markup, the document begins with the doctype, the head and the title `name - edition` |
| EmailExport.DocumentTitle | src/components/HtmlExportPanel.jsx:90 | The exported title is `escapeAttr(newsletterName) + " - " + escapeAttr(edition)` |
| Content.Content.With | src/App.jsx:34-36 | `{ ...prev, [field]: value }`: the field takes the value, and every other field, the quick links and the opacity keep theirs |
| Content.WithOwnValue | src/App.jsx:34-36 | Writing a field's own value back changes nothing |
| Content.WithOverwrite | src/App.jsx:34-36 | A second write to a field overrides the first |
| Content.SetSlot | src/App.jsx:38-44 | One field of slot `idx` takes the value, the slot's other field and every other slot keep theirs; the length is unchanged when `idx` is within the list, and writing just past the end appends one slot |
| Content.SetSlotOwnValue | src/App.jsx:38-44 | Writing a slot's own value back leaves the list unchanged |
| Editor.StartupIssues | src/App.jsx:22-32 | A missing or unparseable stored value leaves the initial empty list; a parsed value becomes the list |
| Editor.FindIssue | src/App.jsx:91 | Nothing is found exactly when no issue has the id; a found issue is in the list and has the id |
| Editor.FindIssueFirst | src/App.jsx:91 | The issue found is the first one with the id |
| Editor.SaveName | src/App.jsx:79 | The name is the trimmed `issueName` when it has a visible character, otherwise `Issue ` followed by the time; either way it is non-empty and starts visibly |
| Editor.FindAfterAppend | src/App.jsx:78-95 | Appending an issue keeps every earlier lookup, and a new id finds the appended issue |
| Editor.SaveThenFind | src/App.jsx:78-95 | An issue saved under a fresh id is found again by that id |
| Editor.DuplicateIdShadowed | src/App.jsx:80-91 | When a save reuses an existing id, loading that id gives the earlier issue |
| Editor.Editor.constructor | src/App.jsx:11-32 | A fresh editor holds the sample issue, no selection and a closed crop request, and the stored list only when that list parses |
| Editor.Editor.UpdateField | src/App.jsx:34-36 | Field `f` becomes `v`; every other field of `data` and all other state is unchanged |
| Editor.Editor.UpdateBackgroundOpacity | src/App.jsx:253-256 | The opacity slider's `updateField('backgroundOpacity', x)` sets the opacity alone |
| Editor.Editor.UpdateQuickLink | src/App.jsx:38-44 | The quick links become `SetSlot` of the old list; no text field and no other state changes |
| Editor.Editor.OpenCropperFor | src/App.jsx:46-65 | With a chosen file the crop request opens on that field, picture and aspect; without one nothing changes |
| Editor.Editor.CropApply | src/App.jsx:67-72 | The picture is written into the target field only when there is a target, an open request always has one so its field then holds the picture, and the request is always reset to the closed default |
| Editor.Editor.CropCancel | src/App.jsx:74-76 | The request is reset to the closed default, and `data` is untouched |
| Editor.Editor.SaveIssue | src/App.jsx:78-87 | Exactly one issue is appended, carrying the current data and the new id, with earlier issues unchanged; when the storage write succeeds, the whole new list is written and the new id is selected; when it throws, nothing is written and the selection is unchanged |
| Editor.Editor.LoadIssue | src/App.jsx:89-95 | The id is always selected; `data` becomes the first matching issue's data, and stays unchanged when nothing matches |

## Left out

- The static markup of the template is kept as its elements, attributes other than
  `style`, comments and visible text; inline CSS and indentation are dropped from it.
  The pieces kept character for character are the line break before the doctype, the
  doctype and head up to the title, the ` - ` between name and edition, the end of the
  title, the closing `</html>` and the indentation after it, the quick-link row, the
  image tag, the image wrappers and the background row. Every other piece of
  `Template`, such as the text after the logo, the name or the issue title, is a
  shortened skeleton.
- `sanitizeHtml` (src/utils/sanitizeHtml.js) is a parameter. The DOMPurify call and its
  allow-list are library behaviour. Its non-string branch (line 41) never arises,
  because every modelled text field is a string.
- The number-to-text conversion of the opacity is a parameter (JavaScript number
  formatting).
- EmailExport.QuickLinksHtml: the row count is stated on the list of rows (one row per shown slot,
  in order), not as a count of `<tr>` occurrences in the joined text.
- Editor.Editor.UpdateQuickLink: requires a quick-link list, because the spread
  `[...prev.quickLinks]` throws when a loaded record has none. It also requires the
  slot to lie within the list or just past its end. Writing further out leaves holes;
  the spread turns them into `undefined` slots, and the exporter's filter
  (src/components/HtmlExportPanel.jsx:68) then throws on `q.label`. Holes are not
  modelled.
- Editor.Editor.OpenCropperFor: the file picker and the asynchronous `FileReader` are
  out of scope. The method takes the chosen file's contents, or none, and models only
  the resulting state change.
- Editor.StartupIssues: a stored value that parses as JSON but is not a list of issues
  is not modelled. The code stores whatever `JSON.parse` returns.
- The `localStorage` write, the `alert`, `htmlOutput` and the copy-to-clipboard
  handler are effects at the boundary. SaveIssue takes whether the write succeeds and
  returns the list it writes, or nothing when the write throws.
- The image cropper (`getCroppedImg`: canvas drawing, JPEG encoding, floating-point
  geometry), the on-screen preview and the rich-text editor wrapper are UI or foreign
  code, and are not part of this model.
