/** The fixture data of constants.ts: the art styles offered by the creation form and
    the four sample storybooks. */
module Constants {
  import opened Types

  /** The sentinel style value the form uses for a user-typed style. */
  const CustomStyle: string := "Custom"

  const ArtStyles: seq<string> := [
    "Whimsical Watercolor",
    "Vibrant Cartoon",
    "Soft Pastel",
    "Storybook Classic",
    "Ghibli Inspired",
    "Pixel Art"
  ]

  /** The text of page n of "Leo the Brave Lion" (pages 1 to 8). */
  function LeoText(n: int): string {
    match n
    case 1 => "Once upon a time, in the heart of the African savanna, there lived a young lion named Leo. Unlike the other lions who loved to roar and show off their strength, Leo was quiet and thoughtful."
    case 2 => "Leo had a golden mane that sparkled in the sunlight, but he was too shy to play with the other cubs. He spent his days watching the clouds drift by and dreaming of adventures beyond the pride lands."
    case 3 => "One day, a terrible drought came to the savanna. The watering holes dried up, and all the animals were worried. The elder lions tried to find water, but they all returned empty-pawed."
    case 4 => "Leo remembered seeing birds flying toward the mountains every morning. \"Maybe they know where water is!\" he thought. Despite being scared, Leo decided to follow them on his own."
    case 5 => "The journey was long and difficult. Leo climbed rocky hills and crossed dry riverbeds. His paws were sore, but he kept going, thinking of his family and friends back home."
    case 6 => "Finally, Leo reached a hidden valley in the mountains. There, he discovered a beautiful crystal-clear spring, surrounded by green grass and colorful flowers. The birds chirped happily around him."
    case 7 => "Leo hurried back to tell everyone about the spring. At first, the other lions didn't believe the quiet cub, but Leo bravely led them all to the hidden valley."
    case 8 => "From that day on, Leo was known as Leo the Brave. He learned that courage isn't about being the loudest or strongest - it's about doing what's right, even when you're scared. And the savanna animals lived happily, thanks to their brave little hero."
    case _ => ""
  }

  /** The picture of page n of "Leo the Brave Lion". */
  function LeoImage(n: int): string {
    match n
    case 1 => "https://picsum.photos/seed/leo1/600/800"
    case 2 => "https://picsum.photos/seed/leo2/600/800"
    case 3 => "https://picsum.photos/seed/leo3/600/800"
    case 4 => "https://picsum.photos/seed/leo4/600/800"
    case 5 => "https://picsum.photos/seed/leo5/600/800"
    case 6 => "https://picsum.photos/seed/leo6/600/800"
    case 7 => "https://picsum.photos/seed/leo7/600/800"
    case 8 => "https://picsum.photos/seed/leo8/600/800"
    case _ => ""
  }

  const LeoPages: seq<Page> := seq(8, k => Page(k + 1, LeoText(k + 1), LeoImage(k + 1)))

  const LeoTitle: string := "Leo the Brave Lion"
  const LeoCover: string := "https://picsum.photos/seed/leo/600/800"
  const Leo: Storybook := Storybook("1", LeoTitle, LeoCover, LeoPages)

  /** The text of page n of "The Magical Forest Adventure" (pages 1 to 8). */
  function ForestText(n: int): string {
    match n
    case 1 => "Mia loved exploring her grandmother's backyard, but she had never noticed the tiny door at the base of the old oak tree until today. It was painted purple with golden stars, and it was just big enough for her to crawl through."
    case 2 => "Curiosity got the better of her, and Mia pushed open the door. To her amazement, she found herself in a magical forest where the trees had silver bark and the leaves sparkled like diamonds in the sunlight."
    case 3 => "A friendly blue rabbit hopped up to her. \"Welcome to the Enchanted Forest!\" he said. \"I'm Benny. We've been waiting for someone brave enough to help us. The Crystal of Seasons has been stolen!\""
    case 4 => "Without the Crystal of Seasons, the forest was stuck in eternal winter. The flowers couldn't bloom, and the forest creatures were getting very cold. Mia knew she had to help her new friends."
    case 5 => "Benny led Mia to the Wise Owl, who lived in the tallest tree. \"The crystal was taken by the Grumpy Troll who lives under the Rainbow Bridge,\" the owl hooted. \"But beware, he loves riddles!\""
    case 6 => "At the Rainbow Bridge, Mia found the Grumpy Troll. \"I'll give you the crystal if you can answer my riddle,\" he grumbled. \"What has hands but cannot clap?\" Mia thought hard and smiled. \"A clock!\" she answered."
    case 7 => "The troll was so impressed that he not only returned the crystal but also decided to stop being grumpy. As soon as Mia placed the crystal back on its pedestal, spring returned to the forest in a burst of colors and warmth."
    case 8 => "The forest creatures threw a wonderful party to celebrate. Mia danced with the rabbits, sang with the birds, and ate honey cakes with the bears. As the sun set, she promised to visit again soon and crawled back through the tiny door, her heart full of magical memories."
    case _ => ""
  }

  /** The picture of page n of "The Magical Forest Adventure". */
  function ForestImage(n: int): string {
    match n
    case 1 => "https://picsum.photos/seed/forest1/600/800"
    case 2 => "https://picsum.photos/seed/forest2/600/800"
    case 3 => "https://picsum.photos/seed/forest3/600/800"
    case 4 => "https://picsum.photos/seed/forest4/600/800"
    case 5 => "https://picsum.photos/seed/forest5/600/800"
    case 6 => "https://picsum.photos/seed/forest6/600/800"
    case 7 => "https://picsum.photos/seed/forest7/600/800"
    case 8 => "https://picsum.photos/seed/forest8/600/800"
    case _ => ""
  }

  const ForestPages: seq<Page> := seq(8, k => Page(k + 1, ForestText(k + 1), ForestImage(k + 1)))

  const ForestTitle: string := "The Magical Forest Adventure"
  const ForestCover: string := "https://picsum.photos/seed/forest/600/800"
  const Forest: Storybook := Storybook("2", ForestTitle, ForestCover, ForestPages)

  const SubmarinePages: seq<Page> := []

  const SubmarineTitle: string := "A Submarine in the Sky"
  const SubmarineCover: string := "https://picsum.photos/seed/submarine/600/800"
  const Submarine: Storybook := Storybook("3", SubmarineTitle, SubmarineCover, SubmarinePages)

  const MysteryPages: seq<Page> := []

  const MysteryTitle: string := "The Mystery of the Missing Toy"
  const MysteryCover: string := "https://picsum.photos/seed/mystery/600/800"
  const Mystery: Storybook := Storybook("4", MysteryTitle, MysteryCover, MysteryPages)

  /** The four sample books, in the order the fixture lists them. */
  const MockStorybooks: seq<Storybook> := [Leo, Forest, Submarine, Mystery]

  /** Six styles, none empty and none equal to the "Custom" sentinel, so an offered
      style is never mistaken for the custom choice. */
  lemma ArtStylesFacts()
    ensures |ArtStyles| == 6
    ensures CustomStyle !in ArtStyles
    ensures forall k :: 0 <= k < |ArtStyles| ==> ArtStyles[k] != ""
  {
  }

  /** The fixture ids '1' to '4' are pairwise distinct. */
  lemma FixtureIdsDistinct()
    ensures Ids(MockStorybooks) == ["1", "2", "3", "4"]
    ensures forall j, k :: 0 <= j < k < |MockStorybooks| ==> MockStorybooks[j].id != MockStorybooks[k].id
  {
  }

  /** Books '1' and '2' have eight pages numbered 1..8 in order; books '3' and '4' have none. */
  lemma FixturePages()
    ensures |Leo.pages| == 8 && NumberedFromOne(Leo.pages)
    ensures |Forest.pages| == 8 && NumberedFromOne(Forest.pages)
    ensures Submarine.pages == [] && Mystery.pages == []
  {
  }
}
