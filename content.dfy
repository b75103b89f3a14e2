/**
 The records the portfolio components exchange: a realisation (one portfolio
 project) and the items of its photo gallery, with JavaScript's `null` /
 `undefined` written as `None`.
 */
module Content {

  datatype Option<+T> = None | Some(value: T)

  /** A gallery photo: an image path and its caption. */
  datatype GalleryItem = GalleryItem(image: string, caption: string)

  /** A category field holds either a bare string or a `{ value, label }` object
      (`label` is a reserved word here, hence `labelText`). */
  datatype Category = Plain(name: string) | Labelled(value: string, labelText: string)

  /** The CMS bookkeeping record `_sys`. */
  datatype Sys = Sys(filename: string)

  /**
   A portfolio project. `kind` is the record's `type` field (the older
   category format; `type` is a reserved word here), `categorie` the newer
   one, `featuredImage` is `featured_image` and `sys` is `_sys`.
   */
  datatype Realisation = Realisation(
    id: Option<string>,
    title: string,
    excerpt: Option<string>,
    body: Option<string>,
    date: string,
    kind: Option<Category>,
    categorie: Option<Category>,
    featuredImage: Option<string>,
    gallery: Option<seq<GalleryItem>>,
    lieu: Option<string>,
    published: bool,
    sys: Option<Sys>)

  /** JavaScript truthiness of an optional string: present and not empty. */
  predicate Truthy(s: Option<string>) {
    s.Some? && s.value != ""
  }
}
