/**
 * Record types shared by the storybook components (src/types.ts) and the
 * Option wrapper that stands for TypeScript's `T | null`.
 */
module Types {

  /** `T | null`: `None` is `null`. */
  datatype Option<+T> = None | Some(value: T)

  /**
   * JavaScript truthiness of a `string | null`: `null` and `''` are falsy,
   * every other string is truthy.
   */
  predicate Truthy(s: Option<string>) {
    s.Some? && s.value != ""
  }

  /**
   * One page of the book. `image` is a data URL or null; `imageScale` is the
   * zoom factor the sliders set (carried as an opaque number here).
   */
  datatype StoryPage = StoryPage(id: string, image: Option<string>, imageScale: real, text: string)

  /** The cover's optional image and its zoom factor. */
  datatype CoverData = CoverData(image: Option<string>, imageScale: real)
}
