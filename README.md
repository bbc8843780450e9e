# QR code with a centred logo — a Dafny model

The application is one React component. It encodes a text or URL as a QR code on an
800-pixel offscreen canvas and scales it down onto a 400-pixel preview canvas. If a PNG logo
was chosen, it puts a white rounded plate in the centre of the code and draws the logo on
the plate, keeping the logo's aspect ratio. The component holds the form state (the text,
the chosen file, its preview URL, an error message and a "generating" flag) and has four
handlers: editing the text, choosing a file, the Generate button and the Download button.
The first three are modelled; download is left out.

This project models two parts of that component:

- `overlay.dfy`, module `Overlay`: the overlay geometry, as pure functions over exact
  reals. `Math.floor` becomes `.Floor` and `Math.round(x)` becomes `Round(x) = (x + 0.5).Floor`,
  which rounds halves up as JavaScript does. `ComputeLayout(display, width, height)` returns
  the plate rectangle, its corner radius and the logo rectangle. The source fixes the canvas
  side at 400. The model takes any canvas side. The plate bounds are proved for every positive
  side. The logo-inside-plate bound is proved for sides that are multiples of five, 400 among
  them. For other sides it can fail: `LogoLeavesPlateOnSevenPixels` shows a 7-pixel canvas
  whose plate spans 2 to 3.4 while the logo spans 3 to 4. The fixed values are proved for 400.
- `form.dfy`, module `Form`: the form state as class `QrForm` with the component's fields,
  plus a `canvas` field for what the preview canvas shows (`Blank`, or `Drawn(text, overlay)`).
  `HandleFile` models the file input handler. `Generate` models the validation, the
  `error` and `generating` handling, and the drawing sequence of `generate`. The QR
  encoder's outcome and the image loader's outcome are parameters. The browser's object
  URL token is a parameter of `HandleFile`. `String.prototype.includes` is `Contains`.
  `ContainsIffOccurs` proves it equal to an independent "occurs at some position" definition.
- `wrappers.dfy`, module `Wrappers`: `Option`, which stands for the source's `T | null`.

Two behaviours of the code worth noting:

- Rejecting a file of the wrong type clears both the chosen file and the preview
  (`app/page.tsx:17-21`), and `HandleFile` does the same.
- The download uses the fixed name `qr-with-logo.png` (`app/page.tsx:140`).

## Model

| member | source | states |
|---|---|---|
| `Overlay.Round` | app/page.tsx:83-84 | `Math.round` gives the integer whose distance to `x` is at most one half, with halves going up |
| `Overlay.Centre` | app/page.tsx:74-75 | the centring offset leaves a far margin at least as large as, and less than two pixels larger than, the near margin |
| `Overlay.LogoSize` | app/page.tsx:69-70 | the logo box side is a fifth of the canvas side |
| `Overlay.Padding` | app/page.tsx:72 | the padding is the whole part of 15% of the box side, and is non-negative on a non-negative canvas |
| `Overlay.PlateSize` | app/page.tsx:73 | the plate is the box with padding on both sides: at least the box side and at most 30% larger |
| `Overlay.Radius` | app/page.tsx:76 | the corner radius is the whole part of 15% of the plate side |
| `Overlay.Aspect` | app/page.tsx:80 | the aspect ratio is positive and times the height gives the width |
| `Overlay.FitLogo` | app/page.tsx:81-84 | one drawn side spans the box, and the other is within half a pixel of the box side divided by (wide logo) or multiplied by (other logos) the aspect ratio |
| `Overlay.ComputeLayout` | app/page.tsx:67-87 | the plate is square and centred with margins differing by less than two pixels; the logo is centred by the same rule on both axes; one logo side spans the logo box |
| `Overlay.PlateAtDisplaySize` | app/page.tsx:40-76 | on the 400-pixel canvas the logo box is 80, the padding 12, the plate 104 pixels square at (148, 148), and the corner radius 15 |
| `Overlay.PlateInsideCanvas` | app/page.tsx:69-75 | for every positive canvas side the plate is at most 0.26 of it, starts at a non-negative offset equal in x and y, ends inside the canvas, and its two margins differ by less than two pixels |
| `Overlay.RadiusFitsPlate` | app/page.tsx:76 | the corner radius is non-negative and at most half the plate side, so the four rounded corners drawn with `arcTo` fit the plate |
| `Overlay.FitKeepsAspect` | app/page.tsx:80-84 | a logo wider than tall gets the full box width and a height within half a pixel of box·height/width; any other logo gets the full box height and a width within half a pixel of box·width/height |
| `Overlay.RatioAboveOne` | app/page.tsx:80-83 | the aspect ratio exceeds one exactly when the logo is wider than tall |
| `Overlay.FitWithinBox` | app/page.tsx:80-84 | when the box side is a whole number, both drawn sides are whole numbers between zero and the box side |
| `Overlay.LogoInsidePlate` | app/page.tsx:70-86 | on every canvas whose side is a multiple of five, the logo is centred by the plate's rule and its rectangle lies inside the plate |
| `Overlay.LogoLeavesPlateOnSevenPixels` | app/page.tsx:70-86 | on a 7-pixel canvas a square logo is drawn from 3 to 4 while the plate ends at 3.4, so the multiple-of-five condition of `LogoInsidePlate` cannot be dropped |
| `Overlay.ExtentInsidePlate` | app/page.tsx:74-75 | a whole-pixel extent no longer than the logo box, centred on the canvas, lies within the plate centred the same way |
| `Overlay.LogoAtDisplaySize` | app/page.tsx:80-87 | on the 400-pixel canvas every logo is drawn in whole pixels inside the 80-pixel box from (160, 160) to (240, 240) |
| `Overlay.WideLogoExample` | app/page.tsx:67-87 | a 100×50 logo gets the 104-pixel plate at (148, 148) with radius 15 and is drawn 80×40 at (160, 180) |
| `Overlay.HalfPixelLogoExample` | app/page.tsx:80-86 | a 160×29 logo has an exact half-pixel height of 14.5, which `Round` takes up to 15, drawn at (160, 192) |
| `Overlay.TallLogoExample` | app/page.tsx:67-87 | a 50×100 logo is drawn 40×80 at (180, 160) |
| `Overlay.SquareLogoExample` | app/page.tsx:67-87 | a square logo of any size is drawn 80×80 at (160, 160) |
| `Form.Contains` | app/page.tsx:17 | `includes` finds a pattern only when it fits in the string, and always finds the empty pattern |
| `Form.IsPng` | app/page.tsx:17 | a file is accepted exactly when "png" occurs somewhere in its MIME type |
| `Form.Describe` | app/page.tsx:91 | the stored message is the error's message whenever that is non-empty, and otherwise its string form; it is empty only when both are |
| `Form.ContainsIffOccurs` | app/page.tsx:17 | the `includes` test holds exactly when the pattern occurs at some position of the string |
| `Form.MimeTypeExamples` | app/page.tsx:17 | `image/png` passes the PNG check, while `image/jpeg` and the empty type do not |
| `Form.FirstFile` | app/page.tsx:16 | the chosen file is present exactly when the file list is non-empty, and then it is the first entry |
| `Form.QrForm.constructor` | app/page.tsx:7-11 | the initial state: the example URL, no file, no preview, no error, not generating, a blank canvas |
| `Form.QrForm.LogoConsistent` | app/page.tsx:8-9 | the logo state: a preview is present exactly when a file is held, and a held file is a PNG |
| `Form.QrForm.Valid` | app/page.tsx:8-11 | between handler calls the logo state is consistent and no generation is in progress |
| `Form.QrForm.EditValue` | app/page.tsx:156 | typing, in any state, replaces the text to encode and changes nothing else |
| `Form.QrForm.HandleFile` | app/page.tsx:14-29 | callable in any state, including while a generation is pending. A first file whose type lacks "png" sets the PNG message and clears file and preview. Otherwise the error is cleared, the file becomes the first one or none, and a preview is present exactly when a file was given. The text, the `generating` flag and the canvas are untouched, the logo state is consistent afterwards, and `Valid` is kept when it held |
| `Form.QrForm.Generate` | app/page.tsx:31-94 | the error is always cleared first. An empty text sets the "Please enter a URL or text" message and leaves the flag down and the canvas unchanged. Otherwise the flag is up while the encoder and loader run, and down on exit. An encoder failure stores the described error and leaves the canvas blank. Success draws the QR code. With a logo, a load failure stores "Failed to load image"; a loaded logo adds `ComputeLayout(400, width, height)` to the canvas. The text, file and preview never change |

## Left out

- The QR matrix encoding (`QRCode.toCanvas`, `app/page.tsx:60`) belongs to an external library whose code is not part of this model. `Generate` receives only its outcome: success, or a thrown error.
- Pixel effects are not modelled: clearing, the 800-to-400 downscale, filling the rounded plate and drawing the logo (`app/page.tsx:44-50`, `62-65`, `78`, `87`, `114-134`). The model records the geometry the drawing calls receive, not the pixels.
- The image loader (`app/page.tsx:98-112`) decodes asynchronously in the browser and revokes its object URL. The model takes only its outcome: the logo's width and height, or the error event.
- `Generate`: requires a loaded logo to have positive width and height. A decoded PNG always has non-zero dimensions, and the source would divide by zero otherwise.
- Download (`app/page.tsx:136-142`) is left out: it creates a link, serialises the canvas with `toDataURL` and clicks the link, all browser calls.
- The JSX tree, the styling and the preview sizes (`app/page.tsx:144-244`) are presentation only.
- The Generate button's `disabled={generating}` (`app/page.tsx:195`) is not modelled as an operation. It is what meets `Generate`'s requirement `Valid()`, whose `!generating` part holds at the button's only call site because a disabled button cannot be clicked.
- Overlapping `generate` calls interleave at each `await` in the browser's event loop. That is concurrency, and the model runs each call from start to finish.
- `Generate`: a file change or a text edit while a generation waits at `app/page.tsx:60` or `68` is not interleaved into the call. `HandleFile` and `EditValue` can run while `generating` is set, but `Generate` itself takes the text and file as they were when it started, as the source's closure does.
- `console.error(err)` (`app/page.tsx:90`) logs to the browser console. The model does not keep a log.
- Object URLs handed to the preview are never revoked by the source. The model treats them as opaque tokens and does not track their lifetime.
- Floating point is not modelled: all arithmetic uses exact reals. `bgSize * 0.15` (`app/page.tsx:76`) is 15.6 exactly, and its double lies slightly below 15.6; both floor to 15, so the radius is unaffected. The input of `Math.round` at `app/page.tsx:83-84` can differ where it matters. When the exact quotient is a half, the double can land just below it. For a 160×29 logo, `80 / (160 / 29)` is 14.5 exactly, and `HalfPixelLogoExample` draws a height of 15 at y = 192. In IEEE doubles it is 14.499999999999998, so `Math.round` yields 14 and the logo sits at y = 193. `FitLogo` and `ComputeLayout` can therefore differ from the browser by one pixel in a drawn side and in the matching `dx` or `dy`.
- `Form.QrForm.Generate`: `generating` being true while the encoder and loader run is stated through the ghost result `busy`, the flag's value at that point, because the model has no view of the intermediate renders.
