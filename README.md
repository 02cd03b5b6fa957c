# Screen-recording app: file slot and request gate

This project models two pieces of a Next.js video-sharing application in
Dafny and proves properties about them:

- **The file-selection slot** (`useFileInput` in `lib/hooks/useFileInputs.ts`).
  It holds one selected file, an object URL that previews it (`""` when
  there is none), and a duration in whole seconds. Three handlers change it:
  - `handleFileChange` checks the size ceiling, revokes the old preview URL,
    stores the new file and its fresh object URL, and starts a duration probe
    for video files.
  - The probe's `onloadedmetadata` callback normalises the duration and
    revokes the probed URL.
  - `resetFile` revokes the preview and clears everything, including the
    input control's value.

  `FileInput.FileSlot` is a class with these fields. Its methods are proved
  against the value-level functions `Change`, `MetadataLoaded` and `Reset`.
  A ghost log records every `createObjectURL`/`revokeObjectURL` call in
  order, and the class invariant says that at most one object URL is alive
  and that it is the stored preview URL.
- **The request gate** (`middleware.ts`). `config.matcher` decides which
  pathnames reach the gate. The gate returns the abuse filter's response if
  there is one. Otherwise it redirects to `/sign-in` when there is no session
  cookie, and passes the request through when there is one.
  `RequestGate.Gated` models the matcher regex
  `/((?!api|_next/static|_next/image|favicon.ico|sign-in|assets).*)` as a
  full match. `RequestGate.Middleware` models the decision.

Files: `wrappers.dfy` (the `Option` type), `file_input.dfy`,
`request_gate.dfy`.

Two behaviours of the code are worth stating outright:

- A selection does not keep exactly one live preview URL. The duration
  probe loads the preview URL itself (`lib/hooks/useFileInputs.ts:23-24`,
  `37`), so its callback revokes that URL (line 35) while it is still
  stored. The next selection (line 19) or reset (line 44) then revokes it
  again. `FileInput.PreviewRevokedTwice` proves this. What does hold is
  weaker: at most one object URL is ever alive, and it is the stored one
  (`FileInput.ChangeKeepsNoLeak`).
- The matcher writes `favicon.ico` unescaped, so `.` is a wildcard and
  `/faviconXico` also bypasses the gate.

## Model

| member | source | states |
|---|---|---|
| FileInput.Round | lib/hooks/useFileInputs.ts:31 | `Math.round` gives the integer n with x - 0.5 < n <= x + 0.5, so halves round up |
| FileInput.ProbedDuration | lib/hooks/useFileInputs.ts:30-34 | a finite positive duration is stored as its nearest whole second; a non-finite or non-positive one is stored as 0; the result is never negative |
| FileInput.RejectedChangeIsInert | lib/hooks/useFileInputs.ts:10-16 | an event with no file, or with a file over `maxSizeMB*1024*1024` bytes, leaves file, previewUrl and duration unchanged, makes no URL call and starts no probe; only the oversized file alerts |
| FileInput.CeilingIsInclusive | lib/hooks/useFileInputs.ts:13 | a file of exactly the ceiling is accepted, because the guard is strict |
| FileInput.AcceptedChange | lib/hooks/useFileInputs.ts:18-38 | an accepted file becomes the selection with the fresh URL as preview; the old preview is revoked exactly when it is non-empty, and before the create; duration keeps its old value; a probe starts on the new URL exactly for `video*` MIME types |
| FileInput.ChangeKeepsNoLeak | lib/hooks/useFileInputs.ts:18-24 | a selection keeps "at most one live object URL, and it is the stored preview"; after an accepted selection the fresh URL is the only live one |
| FileInput.MetadataStoresDuration | lib/hooks/useFileInputs.ts:29-36 | the callback changes only the duration, sets it to the probed value, and makes exactly one call, which revokes the probe URL |
| FileInput.MetadataKeepsNoLeak | lib/hooks/useFileInputs.ts:35 | the callback keeps the no-leak invariant and removes exactly the probe URL from the live set |
| FileInput.ResetReleasesAll | lib/hooks/useFileInputs.ts:42-48 | after a reset no object URL of the slot is alive and the invariant still holds |
| FileInput.ResetIsIdempotent | lib/hooks/useFileInputs.ts:42-48 | a second reset in a row revokes nothing and yields the same cleared state |
| FileInput.PreviewRevokedTwice | lib/hooks/useFileInputs.ts:18-44 | the probe URL is the stored preview URL; after the callback that URL is stored but no longer alive; the following reset revokes it a second time |
| FileInput.FileSlot.constructor | lib/hooks/useFileInputs.ts:4-7 | the hook starts with no file, previewUrl `''`, duration 0, a detached ref and no URL calls |
| FileInput.FileSlot.HandleFileChange | lib/hooks/useFileInputs.ts:9-40 | the new state, URL log, alert count and probe set are those given by `Change`; the invariant is kept |
| FileInput.FileSlot.OnLoadedMetadata | lib/hooks/useFileInputs.ts:29-36 | the new state and URL log are those given by `MetadataLoaded`; the invariant is kept |
| FileInput.FileSlot.ResetFile | lib/hooks/useFileInputs.ts:42-52 | the new state and URL log are those given by `Reset`; no URL is left alive; an attached input control's value becomes `''` and the ref itself is unchanged |
| RequestGate.LiteralMatch | middleware.ts:43 | an alternative without `.` matches exactly the strings it is a prefix of |
| RequestGate.FaviconMatch | middleware.ts:43 | `favicon.ico` matches `favicon`, then any character except a line terminator, then `ico` |
| RequestGate.GatedIff | middleware.ts:43 | a pathname reaches the gate iff it starts with `/`, the rest starts with none of the six alternatives, and the rest has no line terminator |
| RequestGate.ExclusionIsByPrefix | middleware.ts:43 | `/apiary`, `/assets-old`, `/sign-in-help`, `/api/auth/session`, `/_next/static/chunk.js` and `/faviconXico` all bypass the gate |
| RequestGate.PagesAreGated | middleware.ts:43 | `/`, `/upload` and `/video/v1` reach the gate |
| RequestGate.SignInUrl | middleware.ts:34 | the redirect target keeps the request's origin, carries no return-to query, and has a pathname the matcher excludes |
| RequestGate.Middleware | middleware.ts:19-40 | exactly one of three outcomes, in priority order: the filter's response unchanged if there is one; else a redirect to the sign-in URL when the session is absent or empty; else pass-through |
| RequestGate.FilterShortCircuits | middleware.ts:21-24 | with a filter response, the outcome is that response whatever the session cookie is |
| RequestGate.RedirectNeverReentersGate | middleware.ts:33-43 | the request that follows a redirect, fed back through the matcher, bypasses the gate whatever the filter and cookie say, so the gate never redirects in a loop |
| RequestGate.Admit | middleware.ts:19-44 | a request bypasses the gate iff the pathname of its URL is not matched; otherwise it gets the gate's outcome for that URL |
| RequestGate.BypassConsultsNothing | middleware.ts:42-44 | for an unmatched pathname the result does not depend on the filter's result or the cookie |

## Left out

- Browser object URLs: `URL.createObjectURL` is the `objectUrl` parameter of `HandleFileChange`, required to be fresh. `revokeObjectURL` is an entry in a ghost log.
- Media decoding: `document.createElement('video')` and metadata loading are not modelled. A started probe is recorded as its URL. The callback is a separate method that takes the probed URL and the reported duration.
- `alert` is a ghost counter, and the alert text is not modelled.
- Floating point: `video.duration` and `isFinite` are abstracted to `NonFinite | Finite(real)`. `Math.round` is `Floor(x + 0.5)` on reals, so floating-point rounding of `x + 0.5` is not modelled.
- FileInput.ExceedsLimit: `maxSizeMB` is a natural number here. The source accepts any JavaScript number, including fractions.
- React: re-render scheduling, stale closures over `previewUrl`, and the timing of the asynchronous callback are not modelled. State reads are current, and the callback may run at any point after its probe was started.
- The abuse filter (Arcjet `shield`, `detectBot`, `createMiddleware`) is foreign code. Its result is the `filter` input: `None` when it returns nothing. If the filter returns a pass-through response on allowed requests, the model says that response wins and the session check is never reached.
- Behaviour when the abuse service is unreachable is not specified by the code, so it is not modelled.
- `getSessionCookie` (cookie name `session_token`, prefix `better-auth`) is foreign code. Its result is the `session` input. An empty string counts as no session, following JavaScript truthiness.
- URL resolution: `new URL("/sign-in", request.url)` is modelled only for an absolute path. The origin is kept, and the query and fragment are dropped.
- The framework's compilation of `config.matcher` is not modelled: case folding, trailing slashes, locale prefixes and data routes. The regex is read literally, case-sensitively and anchored at both ends.
- `next.config.ts` is static configuration and is not part of this model.
- The upload page, the protected auth route and recorded-video rehydration are not part of this model.
