/**
  The projects section of the portfolio: the static project records, the
  tag colour lookup, the slide offset of the image strip, and the per-card
  carousel controller whose index and interval handle change in place.
 */
module ProjectsSection {
  import opened Wrappers
  import opened CarouselIndex

  // ---------------------------------------------------------------------------
  // Tag colours
  // ---------------------------------------------------------------------------

  /** The colour name of a tag mapped to its style classes. */
  const TagColorMap: map<string, string> := map[
    "blue" := "bg-blue-500/10 text-blue-400",
    "purple" := "bg-purple-500/10 text-purple-400",
    "teal" := "bg-teal-500/10 text-teal-400",
    "red" := "bg-red-500/10 text-red-400",
    "yellow" := "bg-yellow-500/10 text-yellow-400",
    "green" := "bg-green-500/10 text-green-400",
    "orange" := "bg-orange-500/10 text-orange-400"
  ]

  /**
    The classes of a tag: `tagColorMap[color] || tagColorMap.blue`. A missing
    key or a falsy (empty) entry falls back to the blue entry; since no entry
    is empty, a known colour always gets its own entry.
   */
  function TagClass(color: string): (r: string)
    ensures r in TagColorMap.Values
    ensures color in TagColorMap ==> r == TagColorMap[color]
    ensures color !in TagColorMap ==> r == TagColorMap["blue"]
  {
    if color in TagColorMap && TagColorMap[color] != "" then TagColorMap[color]
    else TagColorMap["blue"]
  }

  // ---------------------------------------------------------------------------
  // Project records
  // ---------------------------------------------------------------------------

  /** A titled list of features (the frontend and backend groups). */
  datatype FeatureGroup = FeatureGroup(title: string, features: seq<string>)

  /** A titled list of achievement points. */
  datatype Achievements = Achievements(title: string, points: seq<string>)

  /** A labelled tag; `color` is meant to be a key of `TagColorMap`. */
  datatype Tag = Tag(name: string, color: string)

  /** One showcased project. */
  datatype Project = Project(
    title: string,
    description: string,
    frontend: FeatureGroup,
    backend: FeatureGroup,
    achievements: Achievements,
    tags: seq<Tag>,
    images: seq<string>,
    githubUrl: string)

  /** The projects the section renders, in order. */
  const ProjectsData: seq<Project> := [
    Project(
      "E-commerce Website",
      "A full-featured e-commerce platform built with NestJS (backend) and Next.js + Tailwind (frontend), designed for Admin, Customer, and Guest roles.",
      FeatureGroup("Frontend Architecture", [
        "Next.js with Tailwind CSS",
        "Dynamic Cart with Zustand",
        "Stripe Payment Integration",
        "Modal-based forms and UI feedback (Toastr)"]),
      FeatureGroup("Backend Systems", [
        "NestJS + PostgreSQL",
        "Authentication with JWT stored in cookies",
        "Multer for image uploads",
        "Nodemailer for order status emails"]),
      Achievements("Key Flow & Features", [
        "Admin dashboard for product/category/discount management",
        "Support for product variants (e.g., colors)",
        "Tags like 'Best Sellers' auto-placed in homepage sections",
        "Cart displays total price and discount savings in real-time",
        "Stock updates after payment confirmation via Stripe"]),
      [Tag("Next.js", "blue"), Tag("NestJS", "purple"), Tag("PostgreSQL", "teal"),
       Tag("TailwindCSS", "green"), Tag("Zustand", "red")],
      ["ecom/ecom-homepage.png",
       "ecom/ecom-product-details.png",
       "ecom/ecom-cart.png",
       "ecom/ecom-admin-product.png",
       "ecom/ecom-admin-product-edit.png"],
      "https://github.com/nocillax/ATP3-Ecommerce-Site"),
    Project(
      "Inventory & Sales Management System",
      "A dashboard-based system for managing inventory, sales, stock levels, and business analytics, built using ASP.NET MVC with SQL Server.",
      FeatureGroup("Frontend Interface", [
        "Razor Views with Bootstrap (customized SB Admin 2)",
        "Dynamic dropdowns using Select2",
        "AJAX-powered product/category search",
        "Toastr for interactive feedback"]),
      FeatureGroup("Backend Logic", [
        "ASP.NET MVC with Code First",
        "MSSQL via SQL Server Management Studio",
        "JWT Authentication",
        "PDF Report Generation using Rotativa"]),
      Achievements("Key Flow & Features", [
        "Separate dashboards for Manager and Salesperson roles",
        "Sales form with buyer details, product selection, and invoice generation",
        "KPI cards and visual analytics for both user roles",
        "Advanced reports (Sales, Profit, Stock, Product) with filters and charts",
        "Real-time stock updates and downloadable reports"]),
      [Tag("ASP.NET", "blue"), Tag("MSSQL", "teal"), Tag("Razor", "purple"),
       Tag("Bootstrap", "red"), Tag("JWT", "yellow")],
      ["isms/isms-homepage.png",
       "isms/isms-admin-products.png",
       "isms/isms-create-sale.png",
       "isms/isms-admin-sale-history.png",
       "isms/isms-profit-summary.png",
       "isms/isms-sale-summary.png"],
      "https://github.com/nocillax/Inventory---Sales-Management-System")
  ]

  /** Every project has at least one image, so a card's `% n` is always defined. */
  lemma ProjectsHaveImages()
    ensures |ProjectsData| == 2
    ensures |ProjectsData[0].images| == 5 && |ProjectsData[1].images| == 6
    ensures forall k :: 0 <= k < |ProjectsData| ==> |ProjectsData[k].images| >= 1
  {
  }

  /** Every tag of every project names a colour of `TagColorMap`, so no tag uses the fallback. */
  lemma ProjectTagsKnown()
    ensures forall k, t :: 0 <= k < |ProjectsData| && 0 <= t < |ProjectsData[k].tags| ==>
      ProjectsData[k].tags[t].color in TagColorMap
  {
    forall k, t | 0 <= k < |ProjectsData| && 0 <= t < |ProjectsData[k].tags|
      ensures ProjectsData[k].tags[t].color in TagColorMap
    {
      if k == 0 {
        assert ProjectsData[k].tags[t] in ProjectsData[0].tags;
      } else {
        assert ProjectsData[k].tags[t] in ProjectsData[1].tags;
      }
    }
  }

  // ---------------------------------------------------------------------------
  // Slide offset
  // ---------------------------------------------------------------------------

  /**
    The image strip is shifted left by this many percent of the frame width.
    For a valid index of `n` images it is a whole number of frames and never
    moves past the last one.
   */
  function SlideOffset(i: nat, n: nat): (r: nat)
    requires i < n
    ensures r % 100 == 0 && r <= 100 * (n - 1)
  {
    i * 100
  }

  // ---------------------------------------------------------------------------
  // The card's carousel controller
  // ---------------------------------------------------------------------------

  /** An interval id; browsers hand out positive ids, so a stored id is truthy. */
  type Handle = h: nat | h > 0 witness 1

  /**
    One project card. `currentImage` is the React state, `intervalRef` the ref
    holding the current interval id. `live` is the set of this card's
    intervals that the browser still runs (set by `setInterval`, removed by
    `clearInterval`), and `issued` the last id handed out, so that a new
    interval gets an id never seen before.
   */
  class ProjectCard {
    const project: Project
    var currentImage: nat
    var intervalRef: Option<Handle>
    var live: set<Handle>
    var issued: nat

    /** The index is in range and the only interval running is the one the ref holds. */
    ghost predicate Valid()
      reads this
    {
      && |project.images| >= 1
      && currentImage < |project.images|
      && live == (if intervalRef.Some? then {intervalRef.value} else {})
      && (forall h :: h in live ==> h <= issued)
    }

    /** The card is auto-advancing exactly while its ref holds an interval. */
    predicate AutoAdvancing()
      reads this
    {
      intervalRef.Some?
    }

    /** A freshly mounted card: first image, no interval. */
    constructor (project: Project)
      requires |project.images| >= 1
      ensures Valid() && this.project == project
      ensures currentImage == 0 && intervalRef == None && live == {} && issued == 0
    {
      this.project := project;
      currentImage := 0;
      intervalRef := None;
      live := {};
      issued := 0;
    }

    /** `handleNext`: one image forward, wrapping from the last to the first. */
    method Next()
      requires Valid()
      modifies this`currentImage
      ensures Valid()
      ensures currentImage == NextIndex(old(currentImage), |project.images|)
    {
      currentImage := NextIndex(currentImage, |project.images|);
    }

    /** `handlePrev`: one image back, wrapping from the first to the last. */
    method Prev()
      requires Valid()
      modifies this`currentImage
      ensures Valid()
      ensures currentImage == PrevIndex(old(currentImage), |project.images|)
    {
      currentImage := PrevIndex(currentImage, |project.images|);
    }

    /** The browser's `clearInterval`: interval `h` stops running. */
    method ClearInterval(h: Handle)
      modifies this`live
      ensures live == old(live) - {h}
    {
      live := live - {h};
    }

    /** The browser's `setInterval`: a new interval with a fresh id starts running. */
    method SetInterval() returns (h: Handle)
      modifies this`live, this`issued
      ensures h == old(issued) + 1 && issued == h
      ensures live == old(live) + {h}
    {
      issued := issued + 1;
      h := issued;
      live := live + {h};
    }

    /**
      `handleMouseEnter`: any interval in the ref is cleared, then a new one
      is started and stored, so exactly one interval runs afterwards.
     */
    method MouseEnter()
      requires Valid()
      modifies this`intervalRef, this`live, this`issued
      ensures Valid() && AutoAdvancing()
      ensures intervalRef == Some(old(issued) + 1) && issued == old(issued) + 1
      ensures live == {intervalRef.value} && old(live) !! live
    {
      if intervalRef.Some? {
        ClearInterval(intervalRef.value);
      }
      var h := SetInterval();
      intervalRef := Some(h);
    }

    /**
      `handleMouseLeave`: the interval in the ref, if any, is cleared and the
      ref emptied; with no interval it does nothing.
     */
    method MouseLeave()
      requires Valid()
      modifies this`intervalRef, this`live
      ensures Valid() && !AutoAdvancing()
      ensures intervalRef == None && live == {}
      ensures old(intervalRef) == None ==> unchanged(this)
    {
      if intervalRef.Some? {
        ClearInterval(intervalRef.value);
        intervalRef := None;
      }
    }

    /** A fire of interval `h`: a running interval calls `handleNext`, a cleared one never fires. */
    method Tick(h: Handle)
      requires Valid()
      modifies this`currentImage
      ensures Valid()
      ensures currentImage ==
        if h in live then NextIndex(old(currentImage), |project.images|) else old(currentImage)
    {
      if h in live {
        Next();
      }
    }

    /**
      `k` successive fires of the card's interval while the pointer stays on
      the card: the index moves `k` places forward around the circle. With no
      interval there is nothing to fire and the index stays.
     */
    method FireRepeatedly(k: nat)
      requires Valid()
      modifies this`currentImage
      ensures Valid()
      ensures AutoAdvancing() ==> currentImage == (old(currentImage) + k) % |project.images|
      ensures !AutoAdvancing() ==> currentImage == old(currentImage)
    {
      var j := 0;
      while j < k && intervalRef.Some?
        invariant Valid()
        invariant 0 <= j <= k
        invariant intervalRef.None? ==> j == 0
        invariant currentImage == NextN(old(currentImage), |project.images|, j)
      {
        Tick(intervalRef.value);
        j := j + 1;
      }
      if intervalRef.Some? {
        NextNIsSum(old(currentImage), |project.images|, k);
      }
    }
  }

  /**
    The section renders one card per project, each mounted on its first
    image with no interval running.
   */
  method RenderCards() returns (cards: seq<ProjectCard>)
    ensures |cards| == |ProjectsData|
    ensures forall k :: 0 <= k < |cards| ==>
      fresh(cards[k]) && cards[k].Valid() && cards[k].project == ProjectsData[k]
      && cards[k].currentImage == 0 && cards[k].intervalRef == None
  {
    ProjectsHaveImages();
    cards := [];
    var k := 0;
    while k < |ProjectsData|
      invariant 0 <= k <= |ProjectsData| && |cards| == k
      invariant forall j :: 0 <= j < k ==>
        fresh(cards[j]) && cards[j].Valid() && cards[j].project == ProjectsData[j]
        && cards[j].currentImage == 0 && cards[j].intervalRef == None
    {
      var card := new ProjectCard(ProjectsData[k]);
      cards := cards + [card];
      k := k + 1;
    }
  }
}
