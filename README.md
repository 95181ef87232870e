# Portfolio project carousel, modelled in Dafny

The portfolio's projects section renders one card per project. Each card
carries an image carousel. The carousel keeps a current image index, which
moves forward or back with wrap-around when its buttons are pressed. While
the pointer hovers the card, a repeating interval timer moves the index
forward. Pointer-enter clears any old interval and starts a new one.
Pointer-leave clears the interval and empties the reference to it.

The model has three files:

- `Wrappers.dfy`: the `Option` datatype.
- `CarouselIndex.dfy`: the pure index arithmetic. It holds the `handleNext`
  and `handlePrev` updaters, `k` repeated forward steps and any sequence of
  button presses. It proves range, wrap-around, round-trip and
  `(i + k) % n` laws about them.
- `ProjectsSection.dfy`: the project records and the `projectsData` list,
  the tag colour lookup with its blue fallback, and the slide offset. It also
  holds the class `ProjectCard`, whose fields are the index, the interval
  reference and the set of intervals the browser still runs. Its methods
  `Next`, `Prev`, `MouseEnter`, `MouseLeave` and `Tick` change those fields
  in place.

Browser interval ids are positive integers, so the source's truthiness test
`if (intervalRef.current)` is the same as "the reference holds an id". The
browser's `setInterval` and `clearInterval` are modelled by the card methods
`SetInterval` and `ClearInterval`. They work on the card's own `live` set and
take fresh ids from a counter. A timer fire is the explicit event
`Tick(h)`. The fire of a running interval calls `handleNext`. A cleared
interval never fires, so `Tick` on an id that is not running does nothing.

## Model

| member | source | states |
|---|---|---|
| CarouselIndex.NextIndex | app/components/ProjectsSection.tsx:156-158 | from an index in `[0, n)` the result stays in `[0, n)`; it is `prev + 1` below the last image and wraps to `0` from `n - 1` |
| CarouselIndex.PrevIndex | app/components/ProjectsSection.tsx:160-164 | from an index in `[0, n)` the result stays in `[0, n)`; it is `prev - 1` above the first image and wraps to `n - 1` from `0` |
| CarouselIndex.PrevAfterNext | app/components/ProjectsSection.tsx:156-164 | `handlePrev` after `handleNext` returns to the original index |
| CarouselIndex.NextAfterPrev | app/components/ProjectsSection.tsx:156-164 | `handleNext` after `handlePrev` returns to the original index |
| CarouselIndex.NextN | app/components/ProjectsSection.tsx:156-158 | any number of `handleNext` steps from a valid index keeps the index in `[0, n)` |
| CarouselIndex.NextNIsSum | app/components/ProjectsSection.tsx:156-158 | `k` steps of `handleNext` from `i` give exactly `(i + k) % n` |
| CarouselIndex.NextNFullCycle | app/components/ProjectsSection.tsx:156-158 | `n` steps of `handleNext` come back to the starting image |
| CarouselIndex.FiveImagesScenario | app/components/ProjectsSection.tsx:156-158 | with five images, four forward steps from `0` reach `4` and a fifth wraps to `0` |
| CarouselIndex.Step | app/components/ProjectsSection.tsx:156-164 | one press of either button keeps the index in `[0, n)` |
| CarouselIndex.StepIsShift | app/components/ProjectsSection.tsx:156-164 | one press moves the index by `+1` or `-1` modulo `n` |
| CarouselIndex.Advance | app/components/ProjectsSection.tsx:156-164 | any sequence of forward and back presses keeps the index in `[0, n)` |
| CarouselIndex.AdvanceIsNetShift | app/components/ProjectsSection.tsx:156-164 | any sequence of presses lands on the start shifted by (forward presses minus back presses) modulo `n` |
| ProjectsSection.TagClass | app/components/ProjectsSection.tsx:245 | the lookup always yields an entry of `tagColorMap`: the tag's own entry for a known colour, the blue entry otherwise |
| ProjectsSection.ProjectTagsKnown | app/components/ProjectsSection.tsx:77-131 | every tag in `projectsData` names a colour of `tagColorMap`, so the fallback is never taken there |
| ProjectsSection.ProjectsHaveImages | app/components/ProjectsSection.tsx:84-139 | the two projects have 5 and 6 images, so every card's `% n` has `n >= 1` |
| ProjectsSection.SlideOffset | app/components/ProjectsSection.tsx:283 | for a valid index the strip shifts by a whole number of frames and never past the last one: the offset lies in `[0, 100 * (n - 1)]` and is a multiple of 100 |
| ProjectsSection.ProjectCard.constructor | app/components/ProjectsSection.tsx:148-153 | a new card shows image `0` with an empty interval reference and no interval running |
| ProjectsSection.ProjectCard.Next | app/components/ProjectsSection.tsx:156-158 | the index becomes `NextIndex` of the old one; the interval reference and running intervals are untouched |
| ProjectsSection.ProjectCard.Prev | app/components/ProjectsSection.tsx:160-164 | the index becomes `PrevIndex` of the old one; the interval reference and running intervals are untouched |
| ProjectsSection.ProjectCard.MouseEnter | app/components/ProjectsSection.tsx:167-174 | the old interval, if any, no longer runs; exactly one interval, with a fresh id, runs and is held in the reference; the index is untouched |
| ProjectsSection.ProjectCard.MouseLeave | app/components/ProjectsSection.tsx:177-182 | afterwards no interval runs and the reference is empty; with no interval before, nothing changes; the index is untouched |
| ProjectsSection.ProjectCard.Tick | app/components/ProjectsSection.tsx:171-173 | a fire of the running interval advances the index by one `handleNext` step; a fire of any other id changes nothing |
| ProjectsSection.ProjectCard.FireRepeatedly | app/components/ProjectsSection.tsx:171-173 | `k` fires while hovering move the index from `i0` to `(i0 + k) % n`; with no interval the index stays |
| ProjectsSection.RenderCards | app/components/ProjectsSection.tsx:360-362 | one fresh, valid card per project, in order, each on image `0` with no interval |

The constant `ProjectsSection.TagColorMap` is the colour table of
app/components/ProjectsSection.tsx:10-18, the datatype
`ProjectsSection.Project` (with `FeatureGroup`, `Achievements` and `Tag`) is
the record type of app/components/ProjectsSection.tsx:21-42, and the
constant `ProjectsSection.ProjectsData` is the project list of
app/components/ProjectsSection.tsx:44-143, with every string as written
there.

`CarouselIndex.PositiveMultiple`, `CarouselIndex.DivModUnique`,
`CarouselIndex.ModShift` and `CarouselIndex.ModAddLeft` are arithmetic
helpers for the proofs above. `ProjectCard.SetInterval` and
`ProjectCard.ClearInterval` stand for the browser's timer functions.

## Left out

- Rendering: the JSX markup, the Tailwind class strings other than the tag colour table, the `framer-motion` animations and `next/link` are presentation only.
- Timing: the 5000 ms period of the interval is not modelled. A fire is the abstract event `Tick`, and ids are opaque positive numbers.
- Unmount: the card registers no effect cleanup, so an interval running at unmount keeps firing. The model has no unmount event and claims no cancellation.
- An empty `images` list: there `(prev + 1) % 0` yields `NaN` in JavaScript. The model requires at least one image, and `ProjectsHaveImages` shows that every project in `projectsData` has one.
- React internals: state batching, the `useCallback` memoisation of `handleNext` and the closure the interval captures are framework behaviour. The model applies each update at once.
- TagClass: does not model JavaScript's inherited object keys such as `toString`, which `tagColorMap[color]` would find for an untyped colour value. Only the table's own keys are modelled.
- Interval ids: the browser shares one id space among all cards. The model gives each card its own counter, which is enough for the per-card claims.
- `app/components/HeroSection.tsx` is static markup around a third-party typewriter component whose behaviour cannot be seen. It is not part of this model.
- `app/layout.tsx` is static page metadata, font loading and analytics calls. It is not part of this model.
