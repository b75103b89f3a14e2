/**
 The content client used outside local development: fixed data, a lookup
 of one realisation by file name, and the list queries.
 */
module MockClient {
  import opened Content

  /** The body given to every realisation the lookup finds. */
  const Placeholder: string := "Contenu détaillé de la réalisation..."

  datatype Feature = Feature(feature: string)

  datatype ServiceNode = ServiceNode(
    id: string, title: string, excerpt: string, icon: Option<string>,
    priceRange: string, duration: string, features: seq<Feature>,
    featured: bool, published: bool, sys: Sys)

  datatype CategorieNode = CategorieNode(
    id: string, labelText: string, value: string, description: string, sys: Sys)

  datatype SiteConfig = SiteConfig(
    companyName: string, tagline: string, phone: string, email: string,
    address: string, description: string)

  function Node(id: string, title: string, excerpt: string, image: string, date: string,
                lieu: string, value: string, labelText: string, filename: string): Realisation
  {
    Realisation(Some(id), title, Some(excerpt), None, date, None, Some(Labelled(value, labelText)),
                Some(image), None, Some(lieu), true, Some(Sys(filename)))
  }

  /** The three fixed realisations, in list order. */
  function StaticRealisations(): seq<Realisation> {
    [ Node("terrasse-beton-desactive-mirassou", "Terrasse béton désactivé - Mirassou",
           "Création d'une terrasse en béton désactivé de 40m² avec finition pierre naturelle.",
           "/images/terrasse-beton-desactive-1.jpg", "2024-03-15", "Mirassou",
           "terrasse", "Terrasse", "terrasse-beton-desactive-mirassou.mdx"),
      Node("muret-soutenement-huste", "Muret de soutènement - Husté",
           "Construction d'un muret de soutènement en pierre naturelle de 25m linéaires.",
           "/images/muret-soutenement-1.jpg", "2024-02-20", "Husté",
           "maconnerie", "Maçonnerie", "muret-soutenement-huste.mdx"),
      Node("terrassement", "Terrassement et préparation terrain",
           "Terrassement complet pour préparation d'une construction neuve.",
           "/images/terrassement-1.jpg", "2024-01-10", "Landes",
           "terrassement", "Terrassement", "terrassement-.mdx") ]
  }

  function StaticServices(): seq<ServiceNode> {
    [ ServiceNode("terrasses", "Terrasses",
        "Création de terrasses en béton, pierre naturelle ou composite. Étanchéité et finitions soignées.",
        None, "À partir de 80€/m²", "2-5 jours selon surface",
        [Feature("Béton désactivé"), Feature("Pierre naturelle"), Feature("Carrelage"), Feature("Étanchéité")],
        true, true, Sys("terrasses.mdx")),
      ServiceNode("maconnerie", "Maçonnerie",
        "Murets, murs de soutènement, fondations. Travaux de maçonnerie traditionnelle et moderne.",
        None, "Sur devis", "Variable selon projet",
        [Feature("Murets"), Feature("Murs de soutènement"), Feature("Fondations"), Feature("Réparations")],
        true, true, Sys("maconnerie.mdx")),
      ServiceNode("amenagements-exterieurs", "Aménagements extérieurs",
        "Conception et réalisation d'espaces extérieurs personnalisés : allées, escaliers, clôtures.",
        None, "À partir de 50€/m²", "1-3 semaines",
        [Feature("Allées"), Feature("Escaliers"), Feature("Clôtures"), Feature("Drainage")],
        true, true, Sys("amenagements-exterieurs.mdx")) ]
  }

  function StaticCategories(): seq<CategorieNode> {
    [ CategorieNode("terrasse", "Terrasse", "terrasse", "Création et rénovation de terrasses", Sys("terrasse.md")),
      CategorieNode("maconnerie", "Maçonnerie", "maconnerie", "Travaux de maçonnerie traditionnelle", Sys("maconnerie.md")),
      CategorieNode("amenagement", "Aménagement extérieur", "amenagement", "Aménagements d'espaces extérieurs", Sys("amenagement.md")),
      CategorieNode("terrassement", "Terrassement", "terrassement", "Travaux de terrassement et préparation", Sys("terrassement.md")) ]
  }

  /** Whether a node's `_sys.filename` is exactly `name`. */
  predicate HasFilename(r: Realisation, name: string) {
    r.sys.Some? && r.sys.value.filename == name
  }

  /** `find` on file names: the first node, in list order, whose name is exactly `name`. */
  function FindByFilename(nodes: seq<Realisation>, name: string): (found: Option<Realisation>)
    ensures found.None? <==> forall i :: 0 <= i < |nodes| ==> !HasFilename(nodes[i], name)
    ensures found.Some? ==>
      exists i :: 0 <= i < |nodes| && found.value == nodes[i] && HasFilename(nodes[i], name)
                  && forall j :: 0 <= j < i ==> !HasFilename(nodes[j], name)
    decreases |nodes|
  {
    if nodes == [] then None
    else if HasFilename(nodes[0], name) then Some(nodes[0])
    else
      var rest := FindByFilename(nodes[1..], name);
      assert forall i :: 1 <= i < |nodes| ==> nodes[i] == nodes[1..][i - 1];
      rest
  }

  /** The list query: the fixed realisations, unchanged. */
  function RealisationConnection(): (nodes: seq<Realisation>)
    ensures |nodes| == 3
    ensures forall i :: 0 <= i < |nodes| ==> nodes[i].published && nodes[i].sys.Some?
    ensures forall i :: 0 <= i < |nodes| ==> nodes[i].kind.None? && nodes[i].categorie.Some?
  {
    StaticRealisations()
  }

  /**
   The lookup query: the first fixed realisation whose file name is exactly
   `relativePath`, with the placeholder body and an empty gallery, or null.
   */
  function RealisationQuery(relativePath: string): (r: Option<Realisation>)
    ensures r.None? <==> forall i :: 0 <= i < |StaticRealisations()| ==> !HasFilename(StaticRealisations()[i], relativePath)
    ensures r.Some? ==> r.value.body == Some(Placeholder) && r.value.gallery == Some([])
    ensures r.Some? ==>
      exists i :: 0 <= i < |StaticRealisations()|
                  && HasFilename(StaticRealisations()[i], relativePath)
                  && r.value == StaticRealisations()[i].(body := Some(Placeholder), gallery := Some([]))
                  && forall j :: 0 <= j < i ==> !HasFilename(StaticRealisations()[j], relativePath)
  {
    match FindByFilename(StaticRealisations(), relativePath)
    case None => None
    case Some(node) => Some(node.(body := Some(Placeholder), gallery := Some([])))
  }

  function ServiceConnection(): (nodes: seq<ServiceNode>)
    ensures |nodes| == 3
    ensures forall i :: 0 <= i < |nodes| ==> nodes[i].published && nodes[i].featured && |nodes[i].features| == 4
  {
    StaticServices()
  }

  function CategorieConnection(): (nodes: seq<CategorieNode>)
    ensures |nodes| == 4
    ensures forall i :: 0 <= i < |nodes| ==> nodes[i].id == nodes[i].value
  {
    StaticCategories()
  }

  function Config(): (c: SiteConfig)
    ensures c.companyName == "SARL Husté-Mirassou"
  {
    SiteConfig("SARL Husté-Mirassou", "Maçonnerie et aménagements extérieurs", "06 XX XX XX XX",
               "contact@huste-mirassou.fr", "Husté, Mirassou et environs - Landes (40)",
               "Spécialiste en maçonnerie et aménagements extérieurs dans les Landes")
  }

  /** Every listed realisation is found under its own stored name, all its other fields kept. */
  lemma ListedRealisationsAreFound(i: nat)
    requires i < |StaticRealisations()|
    ensures var node := StaticRealisations()[i];
      RealisationQuery(node.sys.value.filename) == Some(node.(body := Some(Placeholder), gallery := Some([])))
  {
  }

  /**
   Matching is exact: a stored name with ".mdx" appended again, as a caller
   that adds the extension itself would ask, is never found.
   */
  lemma DoubledExtensionIsNotFound(i: nat)
    requires i < |StaticRealisations()|
    ensures RealisationQuery(StaticRealisations()[i].sys.value.filename + ".mdx") == None
  {
  }
}
