/**
 * The pricing page's asset configuration (window.ASSETS): the asset base
 * built from the static URL, the three education images, the lightbox's
 * image list, the education entries, and the lookups by id and by index.
 * window.STATIC_URL is an input (None when it is not set).
 */
module AssetsConfig {
  import opened Wrappers

  const DefaultStaticUrl: string := "/static/"
  const AssetsDir: string := "new_pac/assets/"

  /** `(window.STATIC_URL || '/static/') + 'new_pac/assets/'`. */
  function AssetsBase(staticUrl: Option<string>): (base: string)
    ensures staticUrl.Some? && staticUrl.value != "" ==> base == staticUrl.value + AssetsDir
    ensures staticUrl.None? || staticUrl.value == "" ==> base == DefaultStaticUrl + AssetsDir
    ensures |base| > |AssetsDir| && base[|base| - |AssetsDir|..] == AssetsDir
  {
    var url := if staticUrl.Some? && staticUrl.value != "" then staticUrl.value else DefaultStaticUrl;
    assert (url + AssetsDir)[|url|..] == AssetsDir;
    url + AssetsDir
  }

  const Education1File: string := "565d8b9a48d1045d47ada6198ca92b488b64bd45.png"
  const Education2File: string := "9c6be425213edb200602a4ea1d7c8b169100070f.png"
  const Education3File: string := "5f05bd6817ebd94cc6afcc3126c3b643395b1f00.png"

  /** ASSETS.images. */
  datatype Images = Images(education1: string, education2: string, education3: string)

  function ImagesOf(base: string): Images
  {
    Images(base + Education1File, base + Education2File, base + Education3File)
  }

  /** ASSETS.lightboxImages: the three images, in order. */
  function LightboxImages(base: string): seq<string>
  {
    [base + Education1File, base + Education2File, base + Education3File]
  }

  /** One entry of ASSETS.educationContent. */
  datatype Content = Content(id: int, title: string, description: string, icon: string, image: string, alt: string)

  const Title1: string := "ابدأ رحلتك بثقة في عالم التداول"
  const Description1: string := "تعلم الأساسيات وتفهم كيف يتحرك السوق وتبني استراتيجية تداولك"
  const Title2: string := "أساسيات التداول و أقسام الأسواق المالية - الجزء الأول"
  const Description2: string := "الوسطاء، حساب النقاط، إدارة رأس المال، وبرامج التدول"
  const Title3: string := "أساسيات التداول و أقسام الأسواق المالية - الجزء الثاني"
  const Description3: string := "الفجوات السعرية، الأوردرات، مناطق الطلب، والتأكيدات"

  /** ASSETS.educationContent: ids 1 to 3, each with its image. */
  function EducationContent(base: string): seq<Content>
  {
    [
      Content(1, Title1, Description1, "\U{1F4DA}", base + Education1File, "محتوى تعليمي 1"),
      Content(2, Title2, Description2, "\U{1F4C8}", base + Education2File, "محتوى تعليمي 2"),
      Content(3, Title3, Description3, "\U{1F3AF}", base + Education3File, "محتوى تعليمي 3")
    ]
  }

  /** The index of the first entry with that id, or the number of entries. */
  function FindIndex(entries: seq<Content>, id: int): (k: nat)
    ensures k <= |entries|
    ensures forall j :: 0 <= j < k ==> entries[j].id != id
    ensures k < |entries| ==> entries[k].id == id
  {
    if |entries| == 0 then 0
    else if entries[0].id == id then 0
    else 1 + FindIndex(entries[1..], id)
  }

  /** `entries.find(item => item.id === id)`: the first entry with that id. */
  function FindById(entries: seq<Content>, id: int): (r: Option<Content>)
    ensures r.None? <==> forall k :: 0 <= k < |entries| ==> entries[k].id != id
    ensures r.Some? ==>
      exists k :: 0 <= k < |entries| && entries[k] == r.value && r.value.id == id
                  && forall j :: 0 <= j < k ==> entries[j].id != id
  {
    var k := FindIndex(entries, id);
    if k < |entries| then Some(entries[k]) else None
  }

  /** getImageById: the first entry's image, null (None) when no entry has that id. */
  function ImageById(base: string, id: int): (r: Option<string>)
    ensures var entries := EducationContent(base);
      (r.None? <==> forall k :: 0 <= k < |entries| ==> entries[k].id != id)
      && (r.Some? ==> exists k :: 0 <= k < |entries| && entries[k].id == id && entries[k].image == r.value)
  {
    var content := FindById(EducationContent(base), id);
    if content.Some? then Some(content.value.image) else None
  }

  /** getAllImages. */
  function AllImages(base: string): seq<string>
  {
    LightboxImages(base)
  }

  /** getContentByIndex: `educationContent[index] || null`; an entry is an object, so always truthy. */
  function ContentByIndex(base: string, index: int): (r: Option<Content>)
    ensures r.Some? <==> 0 <= index < |EducationContent(base)|
    ensures r.Some? ==> r.value == EducationContent(base)[index]
  {
    var entries := EducationContent(base);
    if 0 <= index < |entries| then Some(entries[index]) else None
  }

  /** The lightbox lists the education entries' images, in the same order. */
  lemma LightboxMatchesContent(base: string)
    ensures |AllImages(base)| == |EducationContent(base)|
    ensures forall k :: 0 <= k < |AllImages(base)| ==> AllImages(base)[k] == EducationContent(base)[k].image
  {
  }

  /** The image of id k + 1 is the lightbox's k-th image and the entry at index k. */
  lemma IdsFollowIndexes(base: string, k: int)
    requires 0 <= k < 3
    ensures ImageById(base, k + 1) == Some(AllImages(base)[k])
    ensures ContentByIndex(base, k).Some? && ContentByIndex(base, k).value.image == AllImages(base)[k]
  {
    var entries := EducationContent(base);
    assert entries[k].id == k + 1;
    assert forall j :: 0 <= j < 3 && j != k ==> entries[j].id != k + 1;
  }

  /** Every id other than 1, 2 and 3 gives null. */
  lemma UnknownIdHasNoImage(base: string, id: int)
    requires id != 1 && id != 2 && id != 3
    ensures ImageById(base, id).None?
  {
    var entries := EducationContent(base);
    assert forall k :: 0 <= k < |entries| ==> entries[k].id == k + 1;
  }

  /** ASSETS.images names the same three files. */
  lemma NamedImagesAreLightbox(base: string)
    ensures var images := ImagesOf(base);
      AllImages(base) == [images.education1, images.education2, images.education3]
  {
  }
}
